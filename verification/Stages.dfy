/** Pipelines, stages and their life-cycle states: plain data, no scheduling. */
module Stages {
  import opened Wrappers

  // Uuids: only equality is ever used.
  type PipelineId = nat
  type StageId = nat
  type Artifact = string

  // The source's `u8`; attempt counters saturate instead of wrapping.
  type U8 = n: nat | n < 256

  datatype ResourceLock =
    | Gpu
    | Cpu(cap: nat)
    | Disk(cap: nat)
    | Api(name: string, cap: nat)
    | File(path: string)

  datatype StageState =
    | Pending
    | Running
    | Done
    | Failed(error: string, attempt: U8)
    | Exhausted(error: string)
    | Cancelled
    | Skipped
  {
    predicate IsTerminal() {
      Done? || Exhausted? || Cancelled? || Skipped?
    }
  }

  datatype StageDispatch = StageDispatch(plugin: string, verb: string)

  datatype Stage = Stage(
    id: StageId,
    inputs: seq<StageId>,
    state: StageState,
    attempts: U8,
    maxAttempts: U8,
    locks: seq<ResourceLock>,
    dispatch: Option<StageDispatch>,
    artifacts: seq<Artifact>)

  datatype PipelineState = Pending | Running | Done | Failed | Cancelled

  datatype Pipeline = Pipeline(
    id: PipelineId,
    name: string,
    stages: seq<Stage>,
    state: PipelineState,
    subject: Option<nat>,
    error: Option<string>)
  {
    predicate IsTerminal() {
      state.Done? || state.Failed? || state.Cancelled?
    }

    predicate IsActive() {
      state.Pending? || state.Running?
    }
  }

  /** The part of a stage that no scheduling operation ever changes. */
  datatype StageDesign = StageDesign(
    id: StageId,
    inputs: seq<StageId>,
    maxAttempts: U8,
    locks: seq<ResourceLock>,
    dispatch: Option<StageDispatch>)

  function DesignOf(s: Stage): StageDesign {
    StageDesign(s.id, s.inputs, s.maxAttempts, s.locks, s.dispatch)
  }

  function Design(p: Pipeline): (d: seq<StageDesign>)
    ensures |d| == |p.stages|
    ensures forall i :: 0 <= i < |d| ==> d[i] == DesignOf(p.stages[i])
  {
    seq(|p.stages|, i requires 0 <= i < |p.stages| => DesignOf(p.stages[i]))
  }

  /** Position of the first stage called `sid` at or after `from`; |d| when there is none. */
  function IndexFrom(d: seq<StageDesign>, sid: StageId, from: nat): (i: nat)
    requires from <= |d|
    ensures from <= i <= |d|
    ensures i < |d| ==> d[i].id == sid
    ensures forall j :: from <= j < i ==> d[j].id != sid
    decreases |d| - from
  {
    if from == |d| then from
    else if d[from].id == sid then from
    else IndexFrom(d, sid, from + 1)
  }

  function Index(p: Pipeline, sid: StageId): (i: nat)
    ensures i <= |p.stages|
    ensures i < |p.stages| ==> p.stages[i].id == sid
    ensures forall j :: 0 <= j < i ==> p.stages[j].id != sid
  {
    var d := Design(p);
    var i := IndexFrom(d, sid, 0);
    assert forall j :: 0 <= j < i ==> d[j].id == p.stages[j].id;
    i
  }

  predicate HasStage(p: Pipeline, sid: StageId) {
    Index(p, sid) < |p.stages|
  }

  predicate DistinctIds(d: seq<StageDesign>) {
    forall i, j :: 0 <= i < j < |d| ==> d[i].id != d[j].id
  }

  /** What `stages.iter().find(..)` reads: the inputs of the first stage with that id. */
  function InputsOf(d: seq<StageDesign>, sid: StageId): seq<StageId> {
    var i := IndexFrom(d, sid, 0);
    if i < |d| then d[i].inputs else []
  }

  predicate Edge(d: seq<StageDesign>, reader: StageId, input: StageId) {
    input in InputsOf(d, reader)
  }

  /** A walk along input edges. */
  predicate IsWalk(d: seq<StageDesign>, w: seq<StageId>) {
    forall i, j :: 0 <= i < |w| && 0 <= j < |w| && j == i + 1 ==> Edge(d, w[i], w[j])
  }

  predicate IsCycle(d: seq<StageDesign>, w: seq<StageId>) {
    |w| >= 2 && w[0] == w[|w| - 1] && IsWalk(d, w)
  }

  ghost predicate Acyclic(d: seq<StageDesign>) {
    forall w :: !IsCycle(d, w)
  }
}
