/**
  What every registry operation does to the registry, as functions on values.
  The class in Registry.dfy performs these operations in place and is proved
  against them; the scheduler's runs are sequences of them.
 */
module Executor {
  import opened Wrappers
  import opened Stages

  const MAX_PIPELINE_HISTORY: nat := 500

  datatype Slot = Slot(pipeline: PipelineId, stage: StageId)

  datatype Registry = Registry(pipelines: map<PipelineId, Pipeline>, order: seq<PipelineId>)

  const EMPTY_REGISTRY := Registry(map[], [])

  // ---------------------------------------------------------------- admission

  datatype Rule = AcyclicRule | EmptyStageList | DuplicateStageId | DanglingInput | ZeroCapacity | EmptyDispatch

  /** `char::is_whitespace`: the Unicode White_Space property. */
  predicate IsWhitespace(c: char) {
    var n := c as int;
    || 0x9 <= n <= 0xD || n == 0x20 || n == 0x85 || n == 0xA0 || n == 0x1680
    || 0x2000 <= n <= 0x200A || n == 0x2028 || n == 0x2029 || n == 0x202F || n == 0x205F || n == 0x3000
  }

  predicate IsBlank(s: string) {
    forall i :: 0 <= i < |s| ==> IsWhitespace(s[i])
  }

  predicate ZeroCap(l: ResourceLock) {
    match l
    case Api(_, cap) => cap == 0
    case Cpu(cap) => cap == 0
    case Disk(cap) => cap == 0
    case _ => false
  }

  predicate KnownId(d: seq<StageDesign>, sid: StageId) {
    exists i :: 0 <= i < |d| && d[i].id == sid
  }

  predicate InputsKnown(d: seq<StageDesign>) {
    forall i, k :: 0 <= i < |d| && 0 <= k < |d[i].inputs| ==> KnownId(d, d[i].inputs[k])
  }

  predicate CapacitiesPositive(d: seq<StageDesign>) {
    forall i :: 0 <= i < |d| ==> d[i].maxAttempts > 0 && forall k :: 0 <= k < |d[i].locks| ==> !ZeroCap(d[i].locks[k])
  }

  predicate DispatchNamed(d: seq<StageDesign>) {
    forall i :: 0 <= i < |d| && d[i].dispatch.Some? ==>
      !IsBlank(d[i].dispatch.value.plugin) && !IsBlank(d[i].dispatch.value.verb)
  }

  ghost predicate Obeys(d: seq<StageDesign>, rule: Rule) {
    match rule
    case AcyclicRule => Acyclic(d)
    case EmptyStageList => d != []
    case DuplicateStageId => DistinctIds(d)
    case DanglingInput => InputsKnown(d)
    case ZeroCapacity => CapacitiesPositive(d)
    case EmptyDispatch => DispatchNamed(d)
  }

  ghost predicate Accepted(d: seq<StageDesign>) {
    forall rule :: Obeys(d, rule)
  }

  /** The rule a refused submission is refused for: the first broken one. */
  ghost function FirstBroken(d: seq<StageDesign>): (r: Option<Rule>)
    ensures r.None? <==> Accepted(d)
    ensures r.Some? ==> !Obeys(d, r.value)
  {
    if !Obeys(d, AcyclicRule) then Some(AcyclicRule)
    else if !Obeys(d, EmptyStageList) then Some(EmptyStageList)
    else if !Obeys(d, DuplicateStageId) then Some(DuplicateStageId)
    else if !Obeys(d, DanglingInput) then Some(DanglingInput)
    else if !Obeys(d, ZeroCapacity) then Some(ZeroCapacity)
    else if !Obeys(d, EmptyDispatch) then Some(EmptyDispatch)
    else None
  }

  datatype SubmitError = Broken(rule: Rule) | DuplicatePipeline | EquivalentActive | HistoryFull

  predicate SameJob(a: Pipeline, b: Pipeline) {
    a.name == b.name && a.subject == b.subject
  }

  predicate HasActiveTwin(r: Registry, p: Pipeline) {
    exists i :: 0 <= i < |r.order| && r.order[i] in r.pipelines
                && !r.pipelines[r.order[i]].IsTerminal() && SameJob(r.pipelines[r.order[i]], p)
  }

  /** Position in `order` of the oldest terminal run; |order| when every run is active. */
  function OldestTerminal(r: Registry, from: nat): (i: nat)
    requires from <= |r.order|
    ensures from <= i <= |r.order|
    ensures i < |r.order| ==> r.order[i] in r.pipelines && r.pipelines[r.order[i]].IsTerminal()
    ensures forall j :: from <= j < i && r.order[j] in r.pipelines ==> !r.pipelines[r.order[j]].IsTerminal()
    decreases |r.order| - from
  {
    if from == |r.order| then from
    else if r.order[from] in r.pipelines && r.pipelines[r.order[from]].IsTerminal() then from
    else OldestTerminal(r, from + 1)
  }

  function Without(s: seq<PipelineId>, id: PipelineId): (t: seq<PipelineId>)
    ensures forall x :: x in t <==> x in s && x != id
    ensures id !in s ==> t == s
    ensures |t| <= |s|
  {
    if s == [] then []
    else if s[0] == id then Without(s[1..], id)
    else [s[0]] + Without(s[1..], id)
  }

  function RemoveRun(r: Registry, id: PipelineId): Registry {
    Registry(r.pipelines - {id}, Without(r.order, id))
  }

  /** Drop oldest terminal runs until there is room; stops early when only active runs are left. */
  function MakeRoom(r: Registry): (e: Registry)
    decreases |r.pipelines|
  {
    if |r.pipelines| < MAX_PIPELINE_HISTORY then r
    else
      var i := OldestTerminal(r, 0);
      if i == |r.order| then r
      else
        assert r.pipelines.Keys == (r.pipelines - {r.order[i]}).Keys + {r.order[i]};
        MakeRoom(RemoveRun(r, r.order[i]))
  }

  ghost function SubmitRun(r: Registry, p: Pipeline): (Registry, Result<PipelineId, SubmitError>) {
    var broken := FirstBroken(Design(p));
    if broken.Some? then (r, Err(Broken(broken.value)))
    else if p.id in r.pipelines then (r, Err(DuplicatePipeline))
    else if HasActiveTwin(r, p) then (r, Err(EquivalentActive))
    else
      var e := MakeRoom(r);
      if |e.pipelines| >= MAX_PIPELINE_HISTORY then (e, Err(HistoryFull))
      else (Registry(e.pipelines[p.id := p], e.order + [p.id]), Ok(p.id))
  }

  // ------------------------------------------------------------ one pipeline

  function WithState(p: Pipeline, i: nat, st: StageState): Pipeline
    requires i < |p.stages|
  {
    p.(stages := p.stages[i := p.stages[i].(state := st)])
  }

  function SaturatingInc(n: U8): U8 {
    if n == 255 then 255 else n + 1
  }

  predicate AnyExhausted(p: Pipeline) {
    exists i :: 0 <= i < |p.stages| && p.stages[i].state.Exhausted?
  }

  predicate AnyRunning(p: Pipeline) {
    exists i :: 0 <= i < |p.stages| && p.stages[i].state.Running?
  }

  predicate AllTerminal(p: Pipeline) {
    forall i :: 0 <= i < |p.stages| ==> p.stages[i].state.IsTerminal()
  }

  function FirstExhaustedError(stages: seq<Stage>): Option<string> {
    if stages == [] then None
    else if stages[0].state.Exhausted? then Some(stages[0].state.error)
    else FirstExhaustedError(stages[1..])
  }

  function Recompute(p: Pipeline): Pipeline {
    if AnyExhausted(p) then p.(state := PipelineState.Failed, error := FirstExhaustedError(p.stages))
    else if AllTerminal(p) then p.(state := PipelineState.Done, error := None)
    else if AnyRunning(p) then p.(state := PipelineState.Running)
    else p
  }

  function Started(p: Pipeline, i: nat): Pipeline
    requires i < |p.stages|
  {
    WithState(p, i, StageState.Running).(state := PipelineState.Running)
  }

  function Completed(p: Pipeline, i: nat, artifacts: seq<Artifact>): Pipeline
    requires i < |p.stages|
  {
    Recompute(p.(stages := p.stages[i := p.stages[i].(state := StageState.Done, artifacts := artifacts)]))
  }

  function MapStages(stages: seq<Stage>, f: Stage -> Stage): (t: seq<Stage>)
    ensures |t| == |stages|
    ensures forall i :: 0 <= i < |t| ==> t[i] == f(stages[i])
  {
    seq(|stages|, i requires 0 <= i < |stages| => f(stages[i]))
  }

  function StopSibling(failed: StageId, s: Stage): Stage {
    if s.id != failed && (s.state.Pending? || s.state.Failed?) then s.(state := StageState.Skipped) else s
  }

  function StopSiblings(p: Pipeline, failed: StageId): Pipeline {
    p.(stages := MapStages(p.stages, s => StopSibling(failed, s)))
  }

  /** The stage is out of attempts: the run fails and everything not yet started is skipped. */
  function ExhaustedBy(p: Pipeline, i: nat, attempts: U8, error: string): Pipeline
    requires i < |p.stages|
  {
    StopSiblings(
      p.(stages := p.stages[i := p.stages[i].(state := StageState.Exhausted(error), attempts := attempts)],
         state := PipelineState.Failed,
         error := Some(error)),
      p.stages[i].id)
  }

  function FailedBy(p: Pipeline, i: nat, error: string): Pipeline
    requires i < |p.stages|
  {
    var attempts := SaturatingInc(p.stages[i].attempts);
    if attempts >= p.stages[i].maxAttempts then ExhaustedBy(p, i, attempts, error)
    else p.(stages := p.stages[i := p.stages[i].(state := StageState.Failed(error, attempts), attempts := attempts)])
  }

  function CancelStage(s: Stage): Stage {
    if s.state.Pending? || s.state.Running? || s.state.Failed? then s.(state := StageState.Cancelled) else s
  }

  function CancelledRun(p: Pipeline): Pipeline {
    p.(stages := MapStages(p.stages, CancelStage), state := PipelineState.Cancelled)
  }

  function RearmSibling(target: StageId, s: Stage): Stage {
    if s.id != target && (s.state.Failed? || s.state.Exhausted? || s.state.Cancelled? || s.state.Skipped?)
    then s.(state := StageState.Pending, attempts := 0)
    else s
  }

  function ManuallyRetried(p: Pipeline, i: nat): Pipeline
    requires i < |p.stages|
  {
    var s := p.stages[i];
    var attempts := if s.state.Exhausted? then 0 else s.attempts;
    var armed := p.stages[i := s.(state := StageState.Pending, attempts := attempts)];
    p.(stages := if s.state.Exhausted? then MapStages(armed, t => RearmSibling(s.id, t)) else armed,
       state := if p.state.Failed? then PipelineState.Running else p.state,
       error := None)
  }

  function RequeueStage(s: Stage): Stage {
    if s.state.Running? then s.(state := StageState.Pending) else s
  }

  function Requeued(p: Pipeline): Pipeline {
    p.(stages := MapStages(p.stages, RequeueStage),
       state := if p.state.Running? then PipelineState.Pending else p.state)
  }

  // ---------------------------------------------------------------- readiness

  /** The code also lets a Skipped input count; an explicit skip is the only way to have one in an active run. */
  predicate InputReady(p: Pipeline, input: StageId) {
    exists k :: 0 <= k < |p.stages| && p.stages[k].id == input
                && (p.stages[k].state.Done? || p.stages[k].state.Skipped?)
  }

  predicate IsReady(p: Pipeline, i: nat)
    requires i < |p.stages|
  {
    && p.IsActive()
    && p.stages[i].state.Pending?
    && forall k :: 0 <= k < |p.stages[i].inputs| ==> InputReady(p, p.stages[i].inputs[k])
  }

  function ReadyIn(p: Pipeline, upTo: nat): seq<Slot>
    requires upTo <= |p.stages|
  {
    if upTo == 0 then []
    else ReadyIn(p, upTo - 1) + if IsReady(p, upTo - 1) then [Slot(p.id, p.stages[upTo - 1].id)] else []
  }

  function ReadyUpTo(r: Registry, upTo: nat): seq<Slot>
    requires upTo <= |r.order|
  {
    if upTo == 0 then []
    else
      ReadyUpTo(r, upTo - 1) +
      if r.order[upTo - 1] in r.pipelines
      then ReadyIn(r.pipelines[r.order[upTo - 1]], |r.pipelines[r.order[upTo - 1]].stages|)
      else []
  }

  function ReadyStages(r: Registry): seq<Slot> {
    ReadyUpTo(r, |r.order|)
  }

  // ------------------------------------------------------------- one registry

  function Put(r: Registry, id: PipelineId, p: Pipeline): Registry {
    r.(pipelines := r.pipelines[id := p])
  }

  predicate Holds(r: Registry, slot: Slot) {
    slot.pipeline in r.pipelines && HasStage(r.pipelines[slot.pipeline], slot.stage)
  }

  function StageAt(r: Registry, slot: Slot): Stage
    requires Holds(r, slot)
  {
    r.pipelines[slot.pipeline].stages[Index(r.pipelines[slot.pipeline], slot.stage)]
  }

  function MarkRunning(r: Registry, slot: Slot): (Registry, bool) {
    if Holds(r, slot) && (StageAt(r, slot).state.Pending? || StageAt(r, slot).state.Failed?) then
      var p := r.pipelines[slot.pipeline];
      (Put(r, slot.pipeline, Started(p, Index(p, slot.stage))), true)
    else (r, false)
  }

  function CompleteStage(r: Registry, slot: Slot, artifacts: seq<Artifact>): (Registry, bool) {
    if Holds(r, slot) && StageAt(r, slot).state.Running? then
      var p := r.pipelines[slot.pipeline];
      (Put(r, slot.pipeline, Completed(p, Index(p, slot.stage), artifacts)), true)
    else (r, false)
  }

  /** The run that owns a stage id. The code scans a hash map and stops at the first hit. */
  function OwnerFrom(r: Registry, sid: StageId, from: nat): (o: Option<PipelineId>)
    requires from <= |r.order|
    ensures o.Some? ==> Holds(r, Slot(o.value, sid))
    ensures o.None? ==> forall i :: from <= i < |r.order| ==> !Holds(r, Slot(r.order[i], sid))
    decreases |r.order| - from
  {
    if from == |r.order| then None
    else if Holds(r, Slot(r.order[from], sid)) then Some(r.order[from])
    else OwnerFrom(r, sid, from + 1)
  }

  function Owner(r: Registry, sid: StageId): (o: Option<PipelineId>)
    ensures o.Some? ==> Holds(r, Slot(o.value, sid))
    ensures o.None? ==> forall i :: 0 <= i < |r.order| ==> !Holds(r, Slot(r.order[i], sid))
  {
    OwnerFrom(r, sid, 0)
  }

  function MarkFailed(r: Registry, sid: StageId, error: string): (Registry, Option<PipelineId>) {
    var owner := Owner(r, sid);
    if owner.None? || !StageAt(r, Slot(owner.value, sid)).state.Running? then (r, None)
    else
      var p := r.pipelines[owner.value];
      (Put(r, owner.value, FailedBy(p, Index(p, sid), error)), owner)
  }

  function ExhaustStage(r: Registry, sid: StageId, error: string): (Registry, Option<PipelineId>) {
    var owner := Owner(r, sid);
    if owner.None? || !StageAt(r, Slot(owner.value, sid)).state.Running? then (r, None)
    else
      var p := r.pipelines[owner.value];
      var i := Index(p, sid);
      (Put(r, owner.value, ExhaustedBy(p, i, p.stages[i].maxAttempts, error)), owner)
  }

  function RetryFailed(r: Registry, sid: StageId): (Registry, Option<PipelineId>) {
    var owner := Owner(r, sid);
    if owner.None? || !r.pipelines[owner.value].IsActive()
       || !StageAt(r, Slot(owner.value, sid)).state.Failed? then (r, None)
    else
      var p := r.pipelines[owner.value];
      (Put(r, owner.value, WithState(p, Index(p, sid), StageState.Pending)), owner)
  }

  function RetryStage(r: Registry, sid: StageId): (Registry, Option<PipelineId>) {
    var owner := Owner(r, sid);
    if owner.None? then (r, None)
    else
      var st := StageAt(r, Slot(owner.value, sid)).state;
      if !st.Failed? && !st.Exhausted? then (r, None)
      else
        var p := r.pipelines[owner.value];
        (Put(r, owner.value, ManuallyRetried(p, Index(p, sid))), owner)
  }

  function CancelPipeline(r: Registry, id: PipelineId): Registry {
    if id in r.pipelines then Put(r, id, CancelledRun(r.pipelines[id])) else r
  }

  // --------------------------------------------------------------- durability

  /** What `persist` writes: the runs in submission order. */
  function Persisted(r: Registry): seq<Pipeline> {
    PersistedUpTo(r, |r.order|)
  }

  function PersistedUpTo(r: Registry, upTo: nat): seq<Pipeline>
    requires upTo <= |r.order|
  {
    if upTo == 0 then []
    else
      PersistedUpTo(r, upTo - 1) +
      if r.order[upTo - 1] in r.pipelines then [r.pipelines[r.order[upTo - 1]]] else []
  }

  function Rebuilt(runs: seq<Pipeline>): Registry {
    if runs == [] then EMPTY_REGISTRY
    else
      var p := runs[|runs| - 1];
      var r := Rebuilt(runs[..|runs| - 1]);
      Registry(r.pipelines[p.id := Requeued(p)], r.order + [p.id])
  }

  ghost predicate AllAccepted(runs: seq<Pipeline>) {
    forall i :: 0 <= i < |runs| ==> Accepted(Design(runs[i]))
  }

  /** A file with one invalid run is quarantined whole and the registry starts empty. */
  ghost function Opened(runs: seq<Pipeline>): Registry {
    if AllAccepted(runs) then Rebuilt(runs) else EMPTY_REGISTRY
  }
}
