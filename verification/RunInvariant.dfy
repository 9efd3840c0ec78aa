/**
  What is true of one pipeline at every moment of its life, and what each
  operation on it keeps: its graph stays valid, work only ever started after its
  inputs were done, retry counters stay inside their budget, and the run's own
  state agrees with its stages'. The weight is what every piece of work uses up.
 */
module RunInvariant {
  import opened Stages
  import opened Executor

  lemma IndexOfStage(p: Pipeline, j: nat)
    requires DistinctIds(Design(p)) && j < |p.stages|
    ensures Index(p, p.stages[j].id) == j
  {
  }

  predicate IsDone(p: Pipeline, sid: StageId) {
    exists k :: 0 <= k < |p.stages| && p.stages[k].id == sid && p.stages[k].state.Done?
  }

  predicate InputsDone(p: Pipeline, i: nat)
    requires i < |p.stages|
  {
    forall k :: 0 <= k < |p.stages[i].inputs| ==> IsDone(p, p.stages[i].inputs[k])
  }

  predicate HasStarted(st: StageState) {
    st.Running? || st.Failed? || st.Done? || st.Exhausted?
  }

  predicate DependencySafe(p: Pipeline) {
    forall i :: 0 <= i < |p.stages| && HasStarted(p.stages[i].state) ==> InputsDone(p, i)
  }

  predicate WithinBudget(s: Stage) {
    && (if s.state.Exhausted? then s.attempts >= s.maxAttempts else s.attempts < s.maxAttempts)
    && (s.state.Failed? ==> s.state.attempt == s.attempts && s.attempts > 0)
  }

  predicate AttemptsCounted(p: Pipeline) {
    forall i :: 0 <= i < |p.stages| ==> WithinBudget(p.stages[i])
  }

  predicate CanStillRun(st: StageState) {
    st.Pending? || st.Running? || st.Failed?
  }

  predicate StatesAgree(p: Pipeline) {
    match p.state
    case Done => forall i :: 0 <= i < |p.stages| ==> p.stages[i].state.Done?
    case Cancelled => AllTerminal(p)
    case Failed =>
      && AnyExhausted(p)
      && forall i :: 0 <= i < |p.stages| ==> !p.stages[i].state.Cancelled?
    case _ =>
      && !AllTerminal(p)
      && forall i :: 0 <= i < |p.stages| ==> CanStillRun(p.stages[i].state) || p.stages[i].state.Done?
  }

  predicate Sound(p: Pipeline) {
    && DistinctIds(Design(p))
    && DependencySafe(p)
    && AttemptsCounted(p)
    && StatesAgree(p)
  }

  ghost predicate RunInv(p: Pipeline) {
    Accepted(Design(p)) && Sound(p)
  }

  /** A run as it is handed to `submit`: nothing started, no attempt spent. */
  predicate Fresh(p: Pipeline) {
    && p.state.Pending?
    && forall i :: 0 <= i < |p.stages| ==> p.stages[i].state.Pending? && p.stages[i].attempts == 0
  }

  /** A failed run has no stage waiting. */
  predicate Quiet(p: Pipeline) {
    p.state.Failed? ==> forall i :: 0 <= i < |p.stages| ==> !p.stages[i].state.Pending?
  }

  /**
    A run whose stages need no worker, timer or dispatcher that only an earlier life of it had:
    nothing is Running, nothing waits for a backoff, and nothing waits in a run that failed.
   */
  predicate Startable(p: Pipeline) {
    && Sound(p)
    && (forall i :: 0 <= i < |p.stages| ==> !p.stages[i].state.Running?)
    && (p.IsActive() ==> forall i :: 0 <= i < |p.stages| ==> !p.stages[i].state.Failed?)
    && Quiet(p)
  }

  /** Identity and graph are the same, and whatever was done still is, with the same outputs. */
  predicate Kept(p: Pipeline, q: Pipeline) {
    && q.id == p.id && q.name == p.name && q.subject == p.subject
    && Design(q) == Design(p)
    && forall i :: 0 <= i < |p.stages| && i < |q.stages| && p.stages[i].state.Done? ==>
         q.stages[i].state.Done? && q.stages[i].artifacts == p.stages[i].artifacts
  }

  function StageWeight(s: Stage): nat {
    if s.attempts >= s.maxAttempts then 0
    else
      var left := (s.maxAttempts - s.attempts) as nat;
      match s.state
      case Pending => 3 * left
      case Running => 3 * left - 1
      case Failed(_, _) => 3 * left + 1
      case _ => 0
  }

  function StagesWeight(stages: seq<Stage>): nat {
    if stages == [] then 0 else StagesWeight(stages[..|stages| - 1]) + StageWeight(stages[|stages| - 1])
  }

  function Weight(p: Pipeline): nat {
    StagesWeight(p.stages)
  }

  lemma {:induction false} StagesWeightDrops(s: seq<Stage>, t: seq<Stage>, i: int)
    requires |s| == |t|
    requires forall j :: 0 <= j < |s| ==> StageWeight(t[j]) <= StageWeight(s[j])
    requires 0 <= i < |s| ==> StageWeight(t[i]) < StageWeight(s[i])
    ensures StagesWeight(t) <= StagesWeight(s)
    ensures 0 <= i < |s| ==> StagesWeight(t) < StagesWeight(s)
  {
    if s != [] {
      var n := |s| - 1;
      StagesWeightDrops(s[..n], t[..n], i);
    }
  }

  /** One stage across a step: same design, done stays done, budget respected, no work created. */
  predicate StageMoves(s: Stage, t: Stage) {
    && DesignOf(t) == DesignOf(s)
    && (s.state.Done? ==> t.state.Done? && t.artifacts == s.artifacts)
    && (WithinBudget(s) ==> WithinBudget(t))
  }

  /** A step that starts nothing except possibly stage `i`. */
  predicate Moves(p: Pipeline, q: Pipeline, i: int) {
    && q.id == p.id && q.name == p.name && q.subject == p.subject
    && |q.stages| == |p.stages|
    && (forall j :: 0 <= j < |p.stages| ==> StageMoves(p.stages[j], q.stages[j]))
    && (forall j :: 0 <= j < |p.stages| && j != i && HasStarted(q.stages[j].state) ==> HasStarted(p.stages[j].state))
  }

  lemma MovesAreKept(p: Pipeline, q: Pipeline, i: int)
    requires Moves(p, q, i)
    ensures Kept(p, q)
  {
  }

  lemma MovesAreSafe(p: Pipeline, q: Pipeline, i: int)
    requires Sound(p) && Moves(p, q, i)
    requires 0 <= i < |p.stages| ==> InputsDone(p, i)
    requires StatesAgree(q)
    ensures Sound(q) && Kept(p, q)
  {
  }

  lemma OneStageMoves(p: Pipeline, q: Pipeline, i: nat)
    requires q.id == p.id && q.name == p.name && q.subject == p.subject
    requires i < |p.stages| == |q.stages| && q.stages == p.stages[i := q.stages[i]]
    requires StageMoves(p.stages[i], q.stages[i])
    ensures Moves(p, q, i)
  {
  }

  lemma OneStageIsLighter(s: seq<Stage>, t: seq<Stage>, i: nat)
    requires i < |s| == |t| && t == s[i := t[i]] && StageWeight(t[i]) < StageWeight(s[i])
    ensures StagesWeight(t) < StagesWeight(s)
  {
    hide StagesWeight, StageWeight;
    StagesWeightDrops(s, t, i);
  }

  /** A step that changes one stage, whose inputs are done, and takes work off it. */
  lemma OneStageIsSound(p: Pipeline, q: Pipeline, i: nat)
    requires Sound(p) && StatesAgree(q)
    requires q.id == p.id && q.name == p.name && q.subject == p.subject
    requires i < |p.stages| == |q.stages| && q.stages == p.stages[i := q.stages[i]] && InputsDone(p, i)
    requires StageMoves(p.stages[i], q.stages[i]) && StageWeight(q.stages[i]) < StageWeight(p.stages[i])
    ensures Sound(q) && Kept(p, q) && Weight(q) < Weight(p)
  {
    hide Sound, StatesAgree, InputsDone, StageMoves, StageWeight, Moves, Kept, StagesWeight;
    OneStageMoves(p, q, i);
    MovesAreSafe(p, q, i);
    OneStageIsLighter(p.stages, q.stages, i);
  }

  // ------------------------------------------------------- what each step does

  lemma FreshRunsAreSound(p: Pipeline)
    requires Fresh(p) && Accepted(Design(p))
    ensures RunInv(p) && Startable(p) && p.IsActive()
  {
    var d := Design(p);
    assert Obeys(d, ZeroCapacity) && Obeys(d, EmptyStageList) && Obeys(d, DuplicateStageId);
    assert forall i :: 0 <= i < |p.stages| ==> d[i].maxAttempts > 0;
    assert !p.stages[0].state.IsTerminal();
  }

  lemma StartedIsSound(p: Pipeline, i: nat)
    requires Sound(p) && p.IsActive() && i < |p.stages| && p.stages[i].state.Pending? && InputsDone(p, i)
    ensures var q := Started(p, i); Sound(q) && Kept(p, q) && Weight(q) < Weight(p) && q.IsActive()
  {
    var q := Started(p, i);
    assert !q.stages[i].state.IsTerminal();
    assert StatesAgree(q) && WithinBudget(p.stages[i]);
    hide StatesAgree, Sound, InputsDone, Kept, StagesWeight;
    OneStageIsSound(p, q, i);
  }

  lemma CompletionAgrees(p: Pipeline, i: nat, artifacts: seq<Artifact>)
    requires StatesAgree(p) && i < |p.stages| && p.stages[i].state.Running?
    ensures var q := Completed(p, i, artifacts); StatesAgree(q) && (q.IsActive() ==> p.IsActive())
  {
    var q := Completed(p, i, artifacts);
    assert !p.stages[i].state.IsTerminal();
    if p.state.Failed? {
      var e :| 0 <= e < |p.stages| && p.stages[e].state.Exhausted?;
      assert q.stages[e].state.Exhausted?;
    }
  }

  lemma CompletedStagesAre(p: Pipeline, i: nat, artifacts: seq<Artifact>)
    requires i < |p.stages|
    ensures var q := Completed(p, i, artifacts);
      && q.id == p.id && q.name == p.name && q.subject == p.subject
      && q.stages == p.stages[i := p.stages[i].(state := StageState.Done, artifacts := artifacts)]
  {
  }

  lemma CompletedIsSound(p: Pipeline, i: nat, artifacts: seq<Artifact>)
    requires Sound(p) && i < |p.stages| && p.stages[i].state.Running?
    ensures var q := Completed(p, i, artifacts);
      Sound(q) && Kept(p, q) && Weight(q) < Weight(p) && (q.IsActive() ==> p.IsActive())
  {
    assert WithinBudget(p.stages[i]) && InputsDone(p, i);
    CompletionAgrees(p, i, artifacts);
    CompletedStagesAre(p, i, artifacts);
    hide Completed, StatesAgree, Sound, InputsDone, Kept, StagesWeight;
    OneStageIsSound(p, Completed(p, i, artifacts), i);
  }

  /** What exhausting stage `i` leaves of each stage. */
  lemma ExhaustedStages(p: Pipeline, i: nat, attempts: U8, error: string)
    requires DistinctIds(Design(p)) && i < |p.stages|
    ensures var q := ExhaustedBy(p, i, attempts, error);
      && |q.stages| == |p.stages|
      && q.stages[i] == p.stages[i].(state := StageState.Exhausted(error), attempts := attempts)
      && forall j :: 0 <= j < |p.stages| && j != i ==> q.stages[j] == StopSibling(p.stages[i].id, p.stages[j])
                                                       && p.stages[j].id != p.stages[i].id
  {
  }

  lemma ExhaustionAgrees(p: Pipeline, i: nat, attempts: U8, error: string)
    requires DistinctIds(Design(p)) && StatesAgree(p) && i < |p.stages| && p.stages[i].state.Running?
    ensures var q := ExhaustedBy(p, i, attempts, error);
      StatesAgree(q) && q.state.Failed? && forall j :: 0 <= j < |q.stages| ==> !q.stages[j].state.Pending?
  {
    ExhaustedStages(p, i, attempts, error);
    assert ExhaustedBy(p, i, attempts, error).stages[i].state.Exhausted?;
  }

  lemma ExhaustionMoves(p: Pipeline, i: nat, attempts: U8, error: string)
    requires DistinctIds(Design(p)) && i < |p.stages| && p.stages[i].state.Running?
    requires attempts >= p.stages[i].maxAttempts
    ensures Moves(p, ExhaustedBy(p, i, attempts, error), i)
  {
    ExhaustedStages(p, i, attempts, error);
  }

  lemma ExhaustionIsLighter(p: Pipeline, i: nat, attempts: U8, error: string)
    requires DistinctIds(Design(p)) && i < |p.stages| && p.stages[i].state.Running?
    requires attempts >= p.stages[i].maxAttempts && WithinBudget(p.stages[i])
    ensures Weight(ExhaustedBy(p, i, attempts, error)) < Weight(p)
  {
    ExhaustedStages(p, i, attempts, error);
    hide ExhaustedBy, StagesWeight;
    StagesWeightDrops(p.stages, ExhaustedBy(p, i, attempts, error).stages, i);
  }

  lemma ExhaustedIsSound(p: Pipeline, i: nat, attempts: U8, error: string)
    requires Sound(p) && i < |p.stages| && p.stages[i].state.Running? && attempts >= p.stages[i].maxAttempts
    ensures var q := ExhaustedBy(p, i, attempts, error);
      Sound(q) && Kept(p, q) && Weight(q) < Weight(p) && q.state.Failed?
  {
    var q := ExhaustedBy(p, i, attempts, error);
    assert WithinBudget(p.stages[i]) && InputsDone(p, i);
    SoundStatesAgree(p);
    hide Sound, StatesAgree, Moves, Kept, ExhaustedBy, DependencySafe, AttemptsCounted, Weight, InputsDone,
      WithinBudget;
    ExhaustionAgrees(p, i, attempts, error) by { SoundIdsDiffer(p); }
    ExhaustionMoves(p, i, attempts, error) by { SoundIdsDiffer(p); }
    ExhaustionIsLighter(p, i, attempts, error) by { SoundIdsDiffer(p); }
    MovesAreSafe(p, q, i);
  }

  lemma SoundIdsDiffer(p: Pipeline)
    requires Sound(p)
    ensures DistinctIds(Design(p))
  {
  }

  lemma SoundStatesAgree(p: Pipeline)
    requires Sound(p)
    ensures StatesAgree(p)
  {
  }

  /** A failure that leaves attempts over. */
  lemma FailureAgrees(p: Pipeline, i: nat, error: string)
    requires StatesAgree(p) && i < |p.stages| && p.stages[i].state.Running?
    requires SaturatingInc(p.stages[i].attempts) < p.stages[i].maxAttempts
    ensures StatesAgree(FailedBy(p, i, error))
  {
    var q := FailedBy(p, i, error);
    assert !q.stages[i].state.IsTerminal();
    if p.state.Failed? {
      var e :| 0 <= e < |p.stages| && p.stages[e].state.Exhausted?;
      assert q.stages[e].state.Exhausted?;
    }
  }

  lemma FailedIsSound(p: Pipeline, i: nat, error: string)
    requires Sound(p) && i < |p.stages| && p.stages[i].state.Running?
    ensures var q := FailedBy(p, i, error);
      Sound(q) && Kept(p, q) && Weight(q) < Weight(p) && (q.IsActive() ==> p.IsActive())
  {
    assert WithinBudget(p.stages[i]) && InputsDone(p, i);
    var attempts := SaturatingInc(p.stages[i].attempts);
    hide StatesAgree, Sound, InputsDone, Kept, StagesWeight, ExhaustedBy;
    if attempts >= p.stages[i].maxAttempts {
      ExhaustedIsSound(p, i, attempts, error);
    } else {
      FailureAgrees(p, i, error) by { SoundStatesAgree(p); }
      OneStageIsSound(p, FailedBy(p, i, error), i);
    }
  }

  lemma RetriedIsSound(p: Pipeline, i: nat)
    requires Sound(p) && p.IsActive() && i < |p.stages| && p.stages[i].state.Failed?
    ensures var q := WithState(p, i, StageState.Pending);
      Sound(q) && Kept(p, q) && Weight(q) < Weight(p) && q.IsActive()
  {
    var q := WithState(p, i, StageState.Pending);
    assert !q.stages[i].state.IsTerminal();
    assert StatesAgree(q) && WithinBudget(p.stages[i]) && InputsDone(p, i);
    hide StatesAgree, Sound, InputsDone, Kept, StagesWeight;
    OneStageIsSound(p, q, i);
  }

  lemma CancelledIsSound(p: Pipeline)
    requires Sound(p)
    ensures var q := CancelledRun(p); Sound(q) && Kept(p, q) && q.state.Cancelled?
  {
    var q := CancelledRun(p);
    assert StatesAgree(q);
    MovesAreSafe(p, q, -1);
  }

  lemma RequeueAgrees(p: Pipeline)
    requires StatesAgree(p)
    ensures var q := Requeued(p); StatesAgree(q) && (q.IsActive() <==> p.IsActive())
  {
  }

  lemma RequeuedIsSound(p: Pipeline)
    requires Sound(p)
    ensures var q := Requeued(p); Sound(q) && Kept(p, q) && (q.IsActive() <==> p.IsActive())
    ensures Requeued(Requeued(p)) == Requeued(p)
  {
    var q := Requeued(p);
    RequeueAgrees(p);
    MovesAreSafe(p, q, -1);
    assert Requeued(q).stages == q.stages;
  }

  // ------------------------------------------------------------- manual retry

  /**
    When a manual retry may be offered: any Failed stage of a run still going, or
    an Exhausted stage of a run that failed.
   */
  predicate RetryFits(p: Pipeline, i: nat)
    requires i < |p.stages|
  {
    p.IsActive() || (p.state.Failed? && p.stages[i].state.Exhausted?)
  }

  lemma ManualRetryStages(p: Pipeline, i: nat)
    requires DistinctIds(Design(p)) && i < |p.stages|
    ensures var q := ManuallyRetried(p, i);
      && |q.stages| == |p.stages|
      && q.stages[i].state.Pending?
      && forall j :: 0 <= j < |p.stages| && j != i ==>
           q.stages[j]
             == if p.stages[i].state.Exhausted? then RearmSibling(p.stages[i].id, p.stages[j]) else p.stages[j]
  {
  }

  lemma ManualRetryAgreesIff(p: Pipeline, i: nat)
    requires DistinctIds(Design(p)) && StatesAgree(p) && i < |p.stages|
    requires p.stages[i].state.Failed? || p.stages[i].state.Exhausted?
    ensures StatesAgree(ManuallyRetried(p, i)) <==> RetryFits(p, i)
  {
    var q := ManuallyRetried(p, i);
    ManualRetryStages(p, i);
    assert !q.stages[i].state.IsTerminal();
    if !RetryFits(p, i) && p.state.Failed? {
      var e :| 0 <= e < |p.stages| && p.stages[e].state.Exhausted?;
      assert q.stages[e] == p.stages[e];
    }
  }

  /**
    A manual retry puts the run back under the whole run invariant exactly when it
    fits: nothing Exhausted, Skipped or Cancelled is left behind, done work is
    kept, and the run is active again, so progress and termination apply to it.
   */
  lemma ManualRetrySoundIff(p: Pipeline, i: nat)
    requires RunInv(p) && i < |p.stages| && (p.stages[i].state.Failed? || p.stages[i].state.Exhausted?)
    ensures var q := ManuallyRetried(p, i);
      && (RunInv(q) <==> RetryFits(p, i))
      && Kept(p, q)
      && (RetryFits(p, i) ==> q.IsActive() && q.stages[i].state.Pending?)
  {
    var q := ManuallyRetried(p, i);
    assert Obeys(Design(p), ZeroCapacity);
    assert forall j :: 0 <= j < |p.stages| ==> Design(p)[j].maxAttempts > 0;
    ManualRetryStages(p, i);
    ManualRetryAgreesIff(p, i);
    assert forall j :: 0 <= j < |p.stages| ==> StageMoves(p.stages[j], q.stages[j]);
    MovesAreKept(p, q, -1);
    if RetryFits(p, i) {
      MovesAreSafe(p, q, -1);
    }
  }
}
