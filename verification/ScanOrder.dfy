/**
  The registry keeps its runs in a hash map, and the operations that are given a stage id alone
  stop at the first run that has it, in whatever order the map lists them.
 */
module ScanOrder {
  import opened Wrappers
  import opened Sequences
  import opened Stages
  import opened Executor
  import opened RegistryInvariant

  /** An order in which the map may list the runs. */
  ghost predicate IsScan(r: Registry, scan: seq<PipelineId>) {
    Distinct(scan) && forall id :: id in scan <==> id in r.pipelines
  }

  /** The first run of the list that has the stage, among those still going if that is asked for. */
  function FirstHolder(r: Registry, scan: seq<PipelineId>, sid: StageId, activeOnly: bool): (o: Option<PipelineId>)
    ensures o.Some? ==> o.value in scan && Holds(r, Slot(o.value, sid))
    ensures o.Some? && activeOnly ==> r.pipelines[o.value].IsActive()
    ensures o.None? ==>
      forall id :: id in scan && Holds(r, Slot(id, sid)) ==> activeOnly && !r.pipelines[id].IsActive()
  {
    if scan == [] then None
    else if Holds(r, Slot(scan[0], sid)) && (activeOnly ==> r.pipelines[scan[0]].IsActive()) then Some(scan[0])
    else FirstHolder(r, scan[1..], sid, activeOnly)
  }

  function MarkFailedIn(r: Registry, scan: seq<PipelineId>, sid: StageId, error: string)
    : (Registry, Option<PipelineId>)
  {
    var o := FirstHolder(r, scan, sid, false);
    if o.None? || !StageAt(r, Slot(o.value, sid)).state.Running? then (r, None)
    else (Put(r, o.value, FailedBy(r.pipelines[o.value], Index(r.pipelines[o.value], sid), error)), o)
  }

  function ExhaustStageIn(r: Registry, scan: seq<PipelineId>, sid: StageId, error: string)
    : (Registry, Option<PipelineId>)
  {
    var o := FirstHolder(r, scan, sid, false);
    if o.None? || !StageAt(r, Slot(o.value, sid)).state.Running? then (r, None)
    else
      var p := r.pipelines[o.value];
      var i := Index(p, sid);
      (Put(r, o.value, ExhaustedBy(p, i, p.stages[i].maxAttempts, error)), o)
  }

  function RetryStageIn(r: Registry, scan: seq<PipelineId>, sid: StageId): (Registry, Option<PipelineId>) {
    var o := FirstHolder(r, scan, sid, false);
    if o.None? then (r, None)
    else
      var st := StageAt(r, Slot(o.value, sid)).state;
      if !st.Failed? && !st.Exhausted? then (r, None)
      else (Put(r, o.value, ManuallyRetried(r.pipelines[o.value], Index(r.pipelines[o.value], sid))), o)
  }

  /** The automatic retry passes over runs that have ended. */
  function RetryFailedIn(r: Registry, scan: seq<PipelineId>, sid: StageId): (Registry, Option<PipelineId>) {
    var o := FirstHolder(r, scan, sid, true);
    if o.None? || !StageAt(r, Slot(o.value, sid)).state.Failed? then (r, None)
    else
      var p := r.pipelines[o.value];
      (Put(r, o.value, WithState(p, Index(p, sid), StageState.Pending)), o)
  }

  lemma OneHolder(r: Registry, scan: seq<PipelineId>, sid: StageId)
    requires WellShaped(r) && IsScan(r, scan)
    ensures FirstHolder(r, scan, sid, false) == Owner(r, sid)
    ensures FirstHolder(r, scan, sid, true)
      == if Owner(r, sid).Some? && r.pipelines[Owner(r, sid).value].IsActive() then Owner(r, sid) else None
  {
    var o, first, active := Owner(r, sid), FirstHolder(r, scan, sid, false), FirstHolder(r, scan, sid, true);
    if o.Some? {
      assert Holds(r, Slot(o.value, sid)) && o.value in scan;
    } else {
      forall id ensures !Holds(r, Slot(id, sid)) {
        assert id in r.order <==> id in r.pipelines;
      }
    }
    hide Index, FirstHolder;
  }

  /** In a registry in shape every order gives the same, so the model may use the order of submission. */
  lemma ScanOrderDoesNotMatter(r: Registry, scan: seq<PipelineId>, sid: StageId, error: string)
    requires WellShaped(r) && IsScan(r, scan)
    ensures MarkFailedIn(r, scan, sid, error) == MarkFailed(r, sid, error)
    ensures ExhaustStageIn(r, scan, sid, error) == ExhaustStage(r, sid, error)
    ensures RetryStageIn(r, scan, sid) == RetryStage(r, sid)
    ensures RetryFailedIn(r, scan, sid) == RetryFailed(r, sid)
  {
    OneHolder(r, scan, sid);
    hide WellShaped, IsScan, Owner, FirstHolder, Index, FailedBy, ExhaustedBy, ManuallyRetried, WithState;
  }

  lemma OthersFirst(r: Registry, scan: seq<PipelineId>, other: PipelineId)
    requires IsScan(r, scan) && other in r.pipelines
    ensures IsScan(r, [other] + Without(scan, other))
  {
    WithoutStaysDistinct(scan, other);
  }

  lemma FirstInList(r: Registry, rest: seq<PipelineId>, id: PipelineId, sid: StageId)
    requires Holds(r, Slot(id, sid))
    ensures FirstHolder(r, [id] + rest, sid, false) == Some(id)
  {
  }

  ghost predicate AloneWithStage(r: Registry, slot: Slot) {
    forall other :: Holds(r, Slot(other, slot.stage)) ==> other == slot.pipeline
  }

  /** Whatever the order, the failure of this stage is recorded in its own run. */
  ghost predicate FailureReaches(r: Registry, slot: Slot, error: string)
    requires Holds(r, slot)
  {
    var (p, i) := (r.pipelines[slot.pipeline], Index(r.pipelines[slot.pipeline], slot.stage));
    forall scan :: IsScan(r, scan) ==>
      MarkFailedIn(r, scan, slot.stage, error) == (Put(r, slot.pipeline, FailedBy(p, i, error)), Some(slot.pipeline))
  }

  ghost predicate RefusalReaches(r: Registry, slot: Slot, error: string)
    requires Holds(r, slot)
  {
    var (p, i) := (r.pipelines[slot.pipeline], Index(r.pipelines[slot.pipeline], slot.stage));
    forall scan :: IsScan(r, scan) ==>
      ExhaustStageIn(r, scan, slot.stage, error)
        == (Put(r, slot.pipeline, ExhaustedBy(p, i, p.stages[i].maxAttempts, error)), Some(slot.pipeline))
  }

  lemma AloneIsFirst(r: Registry, slot: Slot, scan: seq<PipelineId>)
    requires Holds(r, slot) && AloneWithStage(r, slot) && IsScan(r, scan)
    ensures FirstHolder(r, scan, slot.stage, false) == Some(slot.pipeline)
  {
    assert slot.pipeline in scan;
    hide Index;
  }

  /**
    A failure, or a refusal, of a running stage is sure to reach its own run exactly when no other held run
    has a stage with its id.
   */
  lemma FailureReachesItsRunIff(r: Registry, slot: Slot, error: string)
    requires IsScan(r, r.order) && Holds(r, slot) && StageAt(r, slot).state.Running?
    ensures FailureReaches(r, slot, error) <==> AloneWithStage(r, slot)
    ensures RefusalReaches(r, slot, error) <==> AloneWithStage(r, slot)
  {
    assert slot == Slot(slot.pipeline, slot.stage);
    hide IsScan, Index, FailedBy, ExhaustedBy, FirstHolder;
    if AloneWithStage(r, slot) {
      forall scan | IsScan(r, scan) ensures FirstHolder(r, scan, slot.stage, false) == Some(slot.pipeline) {
        AloneIsFirst(r, slot, scan);
      }
    } else {
      var other :| Holds(r, Slot(other, slot.stage)) && other != slot.pipeline;
      OthersFirst(r, r.order, other);
      FirstInList(r, Without(r.order, other), other, slot.stage);
    }
  }

  lemma ShapeIsScan(r: Registry)
    requires WellShaped(r)
    ensures IsScan(r, r.order)
  {
    hide Holds;
  }

  lemma SameRunsAfterRoom(r: Registry, p: Pipeline)
    requires p.id !in r.pipelines
    ensures p.id !in AfterEviction(r).pipelines
  {
  }

  lemma InsertionKeepsScan(r: Registry, p: Pipeline)
    requires WellShaped(r) && p.id !in r.pipelines
    ensures IsScan(Insert(r, p), Insert(r, p).order)
  {
    hide Holds;
  }

  /** The order of submission is such an order after every submission, one that reuses stage ids included. */
  lemma SubmissionKeepsScan(r: Registry, p: Pipeline)
    requires WellShaped(r) && |r.order| <= MAX_PIPELINE_HISTORY
    ensures IsScan(SubmitRun(r, p).0, SubmitRun(r, p).0.order)
  {
    hide *;
    SubmitOutcome(r, p);
    RoomIsMade(r);
    ShapeIsScan(r);
    if SubmitRun(r, p).1.Ok? {
      SameRunsAfterRoom(r, p);
      InsertionKeepsScan(AfterEviction(r), p);
    }
  }
}
