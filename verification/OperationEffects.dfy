/**
  What each registry operation does, told in the fields of the runs alone: what it answers, which
  stage gets which state and counter, and what stays as it was.
 */
module OperationEffects {
  import opened Wrappers
  import opened Sequences
  import opened Stages
  import opened Executor
  import opened RunInvariant
  import opened RegistryInvariant
  import opened Scheduler
  import opened SchedulerSafety

  /** Place i of a held run, in a registry in shape whose runs name each stage once, as every accepted run does. */
  ghost predicate IsStage(r: Registry, id: PipelineId, i: nat) {
    && WellShaped(r) && id in r.pipelines
    && i < |r.pipelines[id].stages| && DistinctIds(Design(r.pipelines[id]))
  }

  lemma StageFound(r: Registry, id: PipelineId, i: nat)
    requires IsStage(r, id, i)
    ensures var (p, sid) := (r.pipelines[id], r.pipelines[id].stages[i].id);
      && Owner(r, sid) == Some(id) && Index(p, sid) == i && Holds(r, Slot(id, sid))
      && StageAt(r, Slot(id, sid)) == p.stages[i]
      && forall j :: 0 <= j < |p.stages| && j != i ==> p.stages[j].id != sid
  {
    var (p, sid) := (r.pipelines[id], r.pipelines[id].stages[i].id);
    IndexOfStage(p, i);
    OwnerIs(r, Slot(id, sid));
    forall j | 0 <= j < |p.stages| && j != i ensures p.stages[j].id != sid {
      assert Design(p)[j].id != Design(p)[i].id;
    }
  }

  /** Run `id` alone is different, and of it only the stages, the state and the error. */
  ghost predicate ChangesOnly(r: Registry, t: Registry, id: PipelineId) {
    && id in r.pipelines && id in t.pipelines
    && t.order == r.order && t.pipelines == r.pipelines[id := t.pipelines[id]]
    && var (p, q) := (r.pipelines[id], t.pipelines[id]);
    && q.id == p.id && q.name == p.name && q.subject == p.subject && |q.stages| == |p.stages|
  }

  /** All stages but the one at place i are the same. */
  predicate OthersSame(p: Pipeline, q: Pipeline, i: nat) {
    |q.stages| == |p.stages| && forall j :: 0 <= j < |p.stages| && j != i ==> q.stages[j] == p.stages[j]
  }

  // ------------------------------------------------------------------- failures

  /** Out of attempts: the run fails with this error, and what had not begun, or was to be tried again, is skipped. */
  ghost predicate EndsInFailure(p: Pipeline, q: Pipeline, i: nat, error: string) {
    && q.state == PipelineState.Failed && q.error == Some(error)
    && |q.stages| == |p.stages|
    && (i < |q.stages| ==> q.stages[i].state == StageState.Exhausted(error))
    && forall j :: 0 <= j < |p.stages| && j != i ==>
         q.stages[j] == if p.stages[j].state.Pending? || p.stages[j].state.Failed?
                        then p.stages[j].(state := StageState.Skipped) else p.stages[j]
  }

  /**
    A failure of a running stage costs exactly one attempt. It ends the run exactly when that was the last one;
    otherwise the stage is Failed with its error and attempt number and nothing else changes.
   */
  lemma FailureEffect(r: Registry, id: PipelineId, i: nat, error: string)
    requires IsStage(r, id, i)
    ensures var (p, (t, answer)) := (r.pipelines[id], MarkFailed(r, r.pipelines[id].stages[i].id, error));
      if !p.stages[i].state.Running? then t == r && answer == None
      else
        && answer == Some(id) && ChangesOnly(r, t, id)
        && var (spent, q) := (p.stages[i].attempts + 1, t.pipelines[id]);
        && q.stages[i].attempts == (if spent <= 255 then spent else 255)
        && q.stages[i].(state := p.stages[i].state, attempts := p.stages[i].attempts) == p.stages[i]
        && if spent >= p.stages[i].maxAttempts then EndsInFailure(p, q, i, error)
           else
             && q.stages[i].state == StageState.Failed(error, spent)
             && OthersSame(p, q, i) && q.state == p.state && q.error == p.error
  {
    StageFound(r, id, i);
    hide WellShaped, Owner, Index;
  }

  /** A refused stage is out of attempts at once. */
  lemma RefusalEffect(r: Registry, id: PipelineId, i: nat, error: string)
    requires IsStage(r, id, i)
    ensures var (p, (t, answer)) := (r.pipelines[id], ExhaustStage(r, r.pipelines[id].stages[i].id, error));
      if !p.stages[i].state.Running? then t == r && answer == None
      else
        && answer == Some(id) && ChangesOnly(r, t, id)
        && var q := t.pipelines[id];
        && q.stages[i] == p.stages[i].(state := q.stages[i].state, attempts := p.stages[i].maxAttempts)
        && EndsInFailure(p, q, i, error)
  {
    StageFound(r, id, i);
    hide WellShaped, Owner, Index;
  }

  /** A stage id that no held run has is answered with nothing. */
  lemma UnknownStage(r: Registry, sid: StageId, error: string)
    requires forall id, i ::
      id in r.pipelines && 0 <= i < |r.pipelines[id].stages| ==> r.pipelines[id].stages[i].id != sid
    ensures MarkFailed(r, sid, error) == ExhaustStage(r, sid, error) == (r, None)
    ensures RetryFailed(r, sid) == RetryStage(r, sid) == (r, None)
  {
  }

  // -------------------------------------------------------------------- retries

  /** The automatic retry re-arms a Failed stage of a run still going and touches no counter. */
  lemma AutomaticRetryEffect(r: Registry, id: PipelineId, i: nat)
    requires IsStage(r, id, i)
    ensures var (p, (t, answer)) := (r.pipelines[id], RetryFailed(r, r.pipelines[id].stages[i].id));
      if (p.state.Pending? || p.state.Running?) && p.stages[i].state.Failed? then
        && answer == Some(id) && ChangesOnly(r, t, id)
        && var q := t.pipelines[id];
        && q.stages[i] == p.stages[i].(state := StageState.Pending)
        && OthersSame(p, q, i) && q.state == p.state && q.error == p.error
      else t == r && answer == None
  {
    StageFound(r, id, i);
    hide WellShaped, Owner, Index;
  }

  /**
    A manual retry keeps the counter of a stage that only failed, and leaves its siblings alone. An exhausted
    stage starts over, and with it every sibling that failed, ran out, was skipped or was cancelled.
   */
  lemma ManualRetryEffect(r: Registry, id: PipelineId, i: nat)
    requires IsStage(r, id, i)
    ensures var (p, (t, answer)) := (r.pipelines[id], RetryStage(r, r.pipelines[id].stages[i].id));
      if p.stages[i].state.Failed? || p.stages[i].state.Exhausted? then
        && answer == Some(id) && ChangesOnly(r, t, id)
        && var q := t.pipelines[id];
        && q.error == None
        && q.state == (if p.state == PipelineState.Failed then PipelineState.Running else p.state)
        && if p.stages[i].state.Failed? then
             q.stages[i] == p.stages[i].(state := StageState.Pending) && OthersSame(p, q, i)
           else
             && q.stages[i] == p.stages[i].(state := StageState.Pending, attempts := 0)
             && forall j :: 0 <= j < |p.stages| && j != i ==>
                  q.stages[j] == if p.stages[j].state.Pending? || p.stages[j].state.Running? || p.stages[j].state.Done?
                                 then p.stages[j] else p.stages[j].(state := StageState.Pending, attempts := 0)
      else t == r && answer == None
  {
    StageFound(r, id, i);
    hide WellShaped, Owner, Index;
  }

  // -------------------------------------------------------- starting and finishing

  /** A Pending or a Failed stage starts, whatever state its run is in. */
  lemma StartEffect(r: Registry, id: PipelineId, i: nat)
    requires IsStage(r, id, i)
    ensures var (p, (t, ok)) := (r.pipelines[id], MarkRunning(r, Slot(id, r.pipelines[id].stages[i].id)));
      if p.stages[i].state.Pending? || p.stages[i].state.Failed? then
        && ok && ChangesOnly(r, t, id)
        && var q := t.pipelines[id];
        && q.stages[i] == p.stages[i].(state := StageState.Running)
        && OthersSame(p, q, i) && q.state == PipelineState.Running && q.error == p.error
      else t == r && !ok
  {
    StageFound(r, id, i);
    hide WellShaped, Owner, Index;
  }

  /** The state of a run one of whose stages has just been done, in the order in which the cases are tried. */
  ghost predicate SettledAfter(p: Pipeline, q: Pipeline) {
    var (some, all) := (
      exists j :: 0 <= j < |q.stages| && q.stages[j].state.Exhausted?,
      forall j :: 0 <= j < |q.stages| ==>
        var st := q.stages[j].state; st.Done? || st.Skipped? || st.Cancelled? || st.Exhausted?);
    if some then
      && q.state == PipelineState.Failed
      && exists j :: 0 <= j < |q.stages| && q.stages[j].state.Exhausted? && q.error == Some(q.stages[j].state.error)
                     && forall k :: 0 <= k < j ==> !q.stages[k].state.Exhausted?
    else if all then q.state == PipelineState.Done && q.error == None
    else
      && q.error == p.error
      && q.state == if exists j :: 0 <= j < |q.stages| && q.stages[j].state.Running? then PipelineState.Running
                    else p.state
  }

  lemma {:induction false} FirstErrorIs(stages: seq<Stage>) returns (j: nat)
    requires exists k :: 0 <= k < |stages| && stages[k].state.Exhausted?
    ensures j < |stages| && stages[j].state.Exhausted? && forall k :: 0 <= k < j ==> !stages[k].state.Exhausted?
    ensures FirstExhaustedError(stages) == Some(stages[j].state.error)
  {
    if stages[0].state.Exhausted? {
      j := 0;
    } else {
      j := FirstErrorIs(stages[1..]);
      j := j + 1;
    }
  }

  /** A result is taken from a running stage only, and the run is settled by what its stages are then. */
  lemma ResultEffect(r: Registry, id: PipelineId, i: nat, artifacts: seq<Artifact>)
    requires IsStage(r, id, i)
    ensures var (p, (t, ok)) := (r.pipelines[id], CompleteStage(r, Slot(id, r.pipelines[id].stages[i].id), artifacts));
      if p.stages[i].state.Running? then
        && ok && ChangesOnly(r, t, id)
        && var q := t.pipelines[id];
        && q.stages[i] == p.stages[i].(state := StageState.Done, artifacts := artifacts)
        && OthersSame(p, q, i) && SettledAfter(p, q)
      else t == r && !ok
  {
    StageFound(r, id, i);
    hide WellShaped, Owner, Index;
    var p := r.pipelines[id];
    if p.stages[i].state.Running? {
      var q := Completed(p, i, artifacts);
      CompletedStagesAre(p, i, artifacts);
      if AnyExhausted(q) {
        var j := FirstErrorIs(q.stages);
      }
    }
  }

  lemma UnknownSlot(r: Registry, slot: Slot, artifacts: seq<Artifact>)
    requires slot.pipeline in r.pipelines ==>
      forall i :: 0 <= i < |r.pipelines[slot.pipeline].stages| ==> r.pipelines[slot.pipeline].stages[i].id != slot.stage
    ensures MarkRunning(r, slot) == CompleteStage(r, slot, artifacts) == (r, false)
  {
  }

  /** Cancelling ends what has not ended and nothing else. */
  lemma CancelEffect(r: Registry, id: PipelineId)
    ensures id !in r.pipelines ==> CancelPipeline(r, id) == r
    ensures id in r.pipelines ==>
      var (p, t) := (r.pipelines[id], CancelPipeline(r, id));
      && ChangesOnly(r, t, id)
      && var q := t.pipelines[id];
      && q.state == PipelineState.Cancelled && q.error == p.error
      && forall j :: 0 <= j < |p.stages| ==>
           q.stages[j] == if p.stages[j].state.Pending? || p.stages[j].state.Running? || p.stages[j].state.Failed?
                          then p.stages[j].(state := StageState.Cancelled) else p.stages[j]
  {
  }

  /** The tokens it triggers are those of the stages it ends. */
  lemma TokensTriggered(s: Runtime, id: PipelineId, slot: Slot)
    requires id in s.registry.pipelines ==> DistinctIds(Design(s.registry.pipelines[id]))
    ensures Enabled(s, Cancel(id))
    ensures slot in Apply(s, Cancel(id)).revoked <==>
      || slot in s.revoked
      || (slot.pipeline == id && Holds(s.registry, slot)
          && var st := StageAt(s.registry, slot).state; st.Pending? || st.Running? || st.Failed?)
  {
    if slot.pipeline == id && id in s.registry.pipelines {
      var p := s.registry.pipelines[id];
      forall i | 0 <= i < |p.stages| ensures Index(p, p.stages[i].id) == i {
        IndexOfStage(p, i);
      }
      assert slot == Slot(id, slot.stage);
    }
    hide CancelPipeline, Index, DistinctIds;
  }

  // ------------------------------------------------------------------ submission

  /** The place of a run that has ended. */
  predicate EndedAt(r: Registry, i: nat) {
    && i < |r.order| && r.order[i] in r.pipelines
    && var st := r.pipelines[r.order[i]].state; st.Done? || st.Failed? || st.Cancelled?
  }

  /** Someone is at this job: same name, same subject, not ended. */
  predicate JobTaken(r: Registry, p: Pipeline) {
    exists id :: id in r.pipelines && r.pipelines[id].name == p.name && r.pipelines[id].subject == p.subject
                 && (r.pipelines[id].state.Pending? || r.pipelines[id].state.Running?)
  }

  /** What each rule asks of the stages. */
  ghost predicate Keeps(stages: seq<Stage>, rule: Rule) {
    match rule
    case AcyclicRule => !exists w :: ClosedWalk(stages, w)
    case EmptyStageList => stages != []
    case DuplicateStageId => forall i, j :: 0 <= i < j < |stages| ==> stages[i].id != stages[j].id
    case DanglingInput =>
      forall i, k :: 0 <= i < |stages| && 0 <= k < |stages[i].inputs| ==>
        exists j :: 0 <= j < |stages| && stages[j].id == stages[i].inputs[k]
    case ZeroCapacity =>
      forall i :: 0 <= i < |stages| ==>
        && stages[i].maxAttempts != 0
        && forall k :: 0 <= k < |stages[i].locks| ==>
             stages[i].locks[k] != Cpu(0) && stages[i].locks[k] != Disk(0)
             && !(stages[i].locks[k].Api? && stages[i].locks[k].cap == 0)
    case EmptyDispatch =>
      forall i :: 0 <= i < |stages| && stages[i].dispatch.Some? ==>
        HasInk(stages[i].dispatch.value.plugin) && HasInk(stages[i].dispatch.value.verb)
  }

  /** Some character is none of the twenty-five that Unicode calls white space. */
  predicate HasInk(s: string) {
    exists i :: 0 <= i < |s| && s[i] as int !in {
      9, 10, 11, 12, 13, 32, 133, 160, 5760, 8192, 8193, 8194, 8195, 8196, 8197, 8198, 8199, 8200, 8201, 8202,
      8232, 8233, 8239, 8287, 12288 }
  }

  /** From stage to input, from input to input, and back to the start. The first stage with an id speaks for it. */
  predicate ClosedWalk(stages: seq<Stage>, w: seq<StageId>) {
    && |w| >= 2 && w[0] == w[|w| - 1]
    && forall i, j :: 0 <= i < |w| && 0 <= j < |w| && j == i + 1 ==> Reads(stages, w[i], w[j])
  }

  predicate Reads(stages: seq<Stage>, reader: StageId, input: StageId) {
    exists i :: 0 <= i < |stages| && stages[i].id == reader && input in stages[i].inputs
                && forall k :: 0 <= k < i ==> stages[k].id != reader
  }

  lemma ReadsIsEdge(p: Pipeline, a: StageId, b: StageId)
    ensures Reads(p.stages, a, b) <==> Edge(Design(p), a, b)
  {
    var d := Design(p);
    var i := IndexFrom(d, a, 0);
    if i < |d| {
      assert p.stages[i].id == a;
      forall k | 0 <= k < i ensures p.stages[k].id != a {
        assert d[k].id != a;
      }
    }
    if Reads(p.stages, a, b) {
      var j :| 0 <= j < |p.stages| && p.stages[j].id == a && b in p.stages[j].inputs
               && forall k :: 0 <= k < j ==> p.stages[k].id != a;
      assert d[j].id == a;
    }
  }

  lemma NoWalkCloses(p: Pipeline)
    ensures Acyclic(Design(p)) <==> !exists w :: ClosedWalk(p.stages, w)
  {
    forall w ensures ClosedWalk(p.stages, w) <==> IsCycle(Design(p), w) {
      forall a, b ensures Reads(p.stages, a, b) <==> Edge(Design(p), a, b) {
        ReadsIsEdge(p, a, b);
      }
      hide Reads, Edge;
    }
    hide ClosedWalk, IsCycle;
  }

  lemma InkIsNotBlank(s: string)
    ensures HasInk(s) <==> !IsBlank(s)
  {
  }

  lemma RulesInFields(p: Pipeline, rule: Rule)
    ensures Obeys(Design(p), rule) <==> Keeps(p.stages, rule)
  {
    var d := Design(p);
    match rule
    case AcyclicRule => NoWalkCloses(p);
    case EmptyStageList =>
    case DuplicateStageId => assert forall i :: 0 <= i < |d| ==> d[i].id == p.stages[i].id;
    case DanglingInput => KnownInFields(p);
    case ZeroCapacity => CapacitiesInFields(p);
    case EmptyDispatch =>
      forall s: string ensures HasInk(s) <==> !IsBlank(s) {
        InkIsNotBlank(s);
      }
      hide HasInk, IsBlank;
      assert forall i :: 0 <= i < |d| ==> d[i].dispatch == p.stages[i].dispatch;
  }

  lemma KnownInFields(p: Pipeline)
    ensures InputsKnown(Design(p)) <==> Keeps(p.stages, DanglingInput)
  {
    var d := Design(p);
    assert forall i :: 0 <= i < |d| ==> d[i].id == p.stages[i].id && d[i].inputs == p.stages[i].inputs;
    assert forall sid :: KnownId(d, sid) <==> exists j :: 0 <= j < |p.stages| && p.stages[j].id == sid;
  }

  lemma CapacitiesInFields(p: Pipeline)
    ensures CapacitiesPositive(Design(p)) <==> Keeps(p.stages, ZeroCapacity)
  {
    var d := Design(p);
    assert forall i :: 0 <= i < |d| ==> d[i].maxAttempts == p.stages[i].maxAttempts && d[i].locks == p.stages[i].locks;
  }

  lemma TwinInFields(r: Registry, p: Pipeline)
    requires WellShaped(r)
    ensures HasActiveTwin(r, p) <==> JobTaken(r, p)
  {
    hide Holds;
    forall id | id in r.pipelines ensures exists i :: 0 <= i < |r.order| && r.order[i] == id {
      assert id in r.order;
    }
  }

  /** What `submit` answers: the first rule broken, and then the reasons in the order in which they are looked at. */
  ghost function AnswerTo(r: Registry, p: Pipeline): Result<PipelineId, SubmitError> {
    if !Keeps(p.stages, AcyclicRule) then Err(Broken(AcyclicRule))
    else if !Keeps(p.stages, EmptyStageList) then Err(Broken(EmptyStageList))
    else if !Keeps(p.stages, DuplicateStageId) then Err(Broken(DuplicateStageId))
    else if !Keeps(p.stages, DanglingInput) then Err(Broken(DanglingInput))
    else if !Keeps(p.stages, ZeroCapacity) then Err(Broken(ZeroCapacity))
    else if !Keeps(p.stages, EmptyDispatch) then Err(Broken(EmptyDispatch))
    else if p.id in r.pipelines then Err(DuplicatePipeline)
    else if JobTaken(r, p) then Err(EquivalentActive)
    else if |r.order| == 500 && !exists i :: EndedAt(r, i) then Err(HistoryFull)
    else Ok(p.id)
  }

  lemma FirstBrokenInFields(p: Pipeline)
    ensures FirstBroken(Design(p))
      == if !Keeps(p.stages, AcyclicRule) then Some(AcyclicRule)
         else if !Keeps(p.stages, EmptyStageList) then Some(EmptyStageList)
         else if !Keeps(p.stages, DuplicateStageId) then Some(DuplicateStageId)
         else if !Keeps(p.stages, DanglingInput) then Some(DanglingInput)
         else if !Keeps(p.stages, ZeroCapacity) then Some(ZeroCapacity)
         else if !Keeps(p.stages, EmptyDispatch) then Some(EmptyDispatch)
         else None
  {
    forall rule ensures Obeys(Design(p), rule) <==> Keeps(p.stages, rule) {
      RulesInFields(p, rule);
    }
    hide Obeys, Keeps;
  }

  /** The run at place i ended, and nobody before it did. */
  predicate OldestEnded(r: Registry, i: nat) {
    EndedAt(r, i) && forall j: nat :: j < i ==> !EndedAt(r, j)
  }

  lemma OldestInFields(r: Registry)
    requires WellShaped(r)
    ensures var i := OldestTerminal(r, 0);
      && (i < |r.order| ==> OldestEnded(r, i))
      && (i == |r.order| ==> forall j: nat :: !EndedAt(r, j))
  {
    hide Holds;
    forall j: nat | j < |r.order| ensures r.order[j] in r.pipelines {
      assert r.order[j] in r.order;
    }
  }

  lemma AnswerIs(r: Registry, p: Pipeline)
    requires WellShaped(r) && |r.order| <= 500
    ensures SubmitRun(r, p).1 == AnswerTo(r, p)
  {
    FirstBrokenInFields(p);
    TwinInFields(r, p);
    RoomIsMade(r);
    OldestInFields(r);
    hide WellShaped, Keeps, MakeRoom, OldestTerminal, FirstBroken, HasActiveTwin, JobTaken, EndedAt;
  }

  /**
    A submission is accepted exactly when the graph breaks no rule, its id is not held, nobody is at the same job
    for the same subject, and the history is not full of runs still going. Every refusal leaves the registry alone;
    an acceptance appends the run and drops the run that ended longest ago, but only from a full history.
   */
  lemma SubmissionEffect(r: Registry, p: Pipeline)
    requires WellShaped(r) && |r.order| <= 500
    ensures var (t, answer) := SubmitRun(r, p);
      && answer == AnswerTo(r, p)
      && (answer.Err? ==> t == r)
      && (answer.Ok? && |r.order| < 500 ==>
            t.order == r.order + [p.id] && t.pipelines == r.pipelines[p.id := p])
      && (answer.Ok? && |r.order| == 500 ==>
            exists i: nat :: OldestEnded(r, i)
                        && t.order == r.order[..i] + r.order[i + 1..] + [p.id]
                        && t.pipelines == (r.pipelines - {r.order[i]})[p.id := p])
  {
    AnswerIs(r, p);
    SubmitOutcome(r, p);
    EvictionKeepsOrder(r);
    OldestInFields(r);
    hide WellShaped, AnswerTo, OldestTerminal, OldestEnded, EndedAt, SubmitRun, Without;
  }

  // ------------------------------------------------------------------ durability

  /** A run read back: as it was, except that nothing is running any more. */
  ghost predicate ComesBackAs(p: Pipeline, q: Pipeline) {
    && q.id == p.id && q.name == p.name && q.subject == p.subject && q.error == p.error
    && q.state == (if p.state == PipelineState.Running then PipelineState.Pending else p.state)
    && |q.stages| == |p.stages|
    && forall i :: 0 <= i < |p.stages| ==>
         q.stages[i] == if p.stages[i].state == StageState.Running then p.stages[i].(state := StageState.Pending)
                        else p.stages[i]
  }

  /** A restart keeps every run, in order, and of what was running only that it was running is lost. */
  lemma RestartEffect(r: Registry)
    requires RegInv(r)
    ensures var t := Opened(Persisted(r));
      && t.order == r.order && t.pipelines.Keys == r.pipelines.Keys
      && forall id :: id in r.pipelines ==> ComesBackAs(r.pipelines[id], t.pipelines[id])
  {
    CrashRoundTrip(r);
    hide RegInv, Opened, Persisted;
    assert RequeueAll(r).pipelines.Keys == r.pipelines.Keys;
  }

  /** The file lists the held runs, each as it is, oldest submission first. */
  lemma SavedAsHeld(r: Registry)
    requires WellShaped(r)
    ensures |Persisted(r)| == |r.order| == |r.pipelines|
    ensures forall i :: 0 <= i < |r.order| ==>
      r.order[i] in r.pipelines && Persisted(r)[i] == r.pipelines[r.order[i]]
  {
    SizeIsOrderLength(r);
    PersistedInOrder(r);
    hide WellShaped;
  }

  // ------------------------------------------------------------------- readiness

  /** Run id is going, its stage i waits, and each of its inputs names a stage that is done or was skipped. */
  predicate CanStart(r: Registry, id: PipelineId, i: nat) {
    && id in r.pipelines && i < |r.pipelines[id].stages|
    && var p := r.pipelines[id];
    && (p.state.Pending? || p.state.Running?) && p.stages[i].state.Pending?
    && forall input :: input in p.stages[i].inputs ==>
         exists k :: 0 <= k < |p.stages| && p.stages[k].id == input
                     && (p.stages[k].state.Done? || p.stages[k].state.Skipped?)
  }

  lemma ReadyInFields(r: Registry, id: PipelineId, i: nat)
    requires id in r.pipelines && i < |r.pipelines[id].stages|
    ensures IsReady(r.pipelines[id], i) <==> CanStart(r, id, i)
  {
    var p := r.pipelines[id];
    var inputs := p.stages[i].inputs;
    if CanStart(r, id, i) {
      forall k | 0 <= k < |inputs| ensures InputReady(p, inputs[k]) {
        assert inputs[k] in inputs;
      }
    }
  }

  /** Of one run the stage with the lower place, of two runs the one submitted earlier. */
  predicate ListedBefore(r: Registry, x: Slot, y: Slot) {
    if x.pipeline == y.pipeline then
      && x.pipeline in r.pipelines
      && var stages := r.pipelines[x.pipeline].stages;
      exists i, j :: 0 <= i < j < |stages| && stages[i].id == x.stage && stages[j].id == y.stage
    else exists a, b :: 0 <= a < b < |r.order| && r.order[a] == x.pipeline && r.order[b] == y.pipeline
  }

  ghost predicate InListingOrder(r: Registry, ready: seq<Slot>) {
    forall k, l :: 0 <= k < l < |ready| ==> ListedBefore(r, ready[k], ready[l])
  }

  lemma ListingsJoin(r: Registry, before: seq<Slot>, more: seq<Slot>)
    requires InListingOrder(r, before) && InListingOrder(r, more)
    requires forall x, y :: x in before && y in more ==> ListedBefore(r, x, y)
    ensures InListingOrder(r, before + more)
  {
    hide ListedBefore;
  }

  lemma {:induction false} ReadyInOrder(r: Registry, id: PipelineId, upTo: nat)
    requires id in r.pipelines && r.pipelines[id].id == id && upTo <= |r.pipelines[id].stages|
    ensures InListingOrder(r, ReadyIn(r.pipelines[id], upTo))
  {
    if upTo > 0 {
      var p := r.pipelines[id];
      var (before, last) := (ReadyIn(p, upTo - 1), Slot(id, p.stages[upTo - 1].id));
      ReadyInOrder(r, id, upTo - 1);
      forall x | x in before ensures ListedBefore(r, x, last) {
        ReadyInLists(p, upTo - 1, x);
      }
      hide ListedBefore;
      ListingsJoin(r, before, [last]);
      assert before + [] == before;
    }
  }

  lemma {:induction false} ReadyUpToOrder(r: Registry, upTo: nat)
    requires Filed(r) && upTo <= |r.order|
    ensures InListingOrder(r, ReadyUpTo(r, upTo))
  {
    if upTo > 0 {
      ReadyUpToOrder(r, upTo - 1);
      var (before, id) := (ReadyUpTo(r, upTo - 1), r.order[upTo - 1]);
      assert before + [] == before;
      if id in r.pipelines {
        var own := ReadyIn(r.pipelines[id], |r.pipelines[id].stages|);
        ReadyInOrder(r, id, |r.pipelines[id].stages|);
        forall x, y | x in before && y in own ensures ListedBefore(r, x, y) {
          ReadyUpToLists(r, upTo - 1, x);
          ReadyInLists(r.pipelines[id], |r.pipelines[id].stages|, y);
          EarlierRun(r, upTo - 1, x, y);
        }
        hide InListingOrder, ListedBefore, ReadyIn, Filed;
        ListingsJoin(r, before, own);
      }
    }
  }

  lemma EarlierRun(r: Registry, at: nat, x: Slot, y: Slot)
    requires Distinct(r.order) && at < |r.order| && x.pipeline in r.order[..at] && y.pipeline == r.order[at]
    ensures ListedBefore(r, x, y)
  {
    var a :| 0 <= a < at && r.order[a] == x.pipeline;
  }

  lemma ReadySlotInFields(r: Registry, slot: Slot)
    requires slot.pipeline in r.pipelines && DistinctIds(Design(r.pipelines[slot.pipeline]))
    ensures SlotReady(r, slot) <==>
      exists i: nat :: CanStart(r, slot.pipeline, i) && r.pipelines[slot.pipeline].stages[i].id == slot.stage
  {
    var (id, p) := (slot.pipeline, r.pipelines[slot.pipeline]);
    hide IsReady, CanStart;
    if SlotReady(r, slot) {
      ReadyInFields(r, id, Index(p, slot.stage));
    }
    if i: nat :| i < |p.stages| && CanStart(r, id, i) && p.stages[i].id == slot.stage {
      IndexOfStage(p, i);
      ReadyInFields(r, id, i);
    }
  }

  /** The ready stages are exactly those that can start, listed by run and then by stage. */
  lemma ReadinessEffect(r: Registry, slot: Slot)
    requires RegInv(r)
    ensures slot in ReadyStages(r) <==>
      slot.pipeline in r.pipelines
      && exists i: nat :: CanStart(r, slot.pipeline, i) && r.pipelines[slot.pipeline].stages[i].id == slot.stage
    ensures InListingOrder(r, ReadyStages(r))
  {
    SnapshotIsExact(r);
    SoundIsFiled(r);
    ReadyUpToOrder(r, |r.order|);
    hide RegInv, CanStart, InListingOrder;
    if slot.pipeline in r.pipelines {
      ReadySlotInFields(r, slot);
    }
  }
}
