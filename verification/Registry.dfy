/**
  The durable registry as the daemon holds it: two fields changed in place under one
  mutex, and the file they are saved to. Every method is proved against the function
  of the same step in Executor.dfy.
 */
module Registries {
  import opened Wrappers
  import opened Stages
  import opened Cycles
  import opened Executor
  import opened RegistryInvariant

  // ------------------------------------------------------------------- validation

  function RuleNumber(rule: Rule): nat {
    match rule
    case AcyclicRule => 0
    case EmptyStageList => 1
    case DuplicateStageId => 2
    case DanglingInput => 3
    case ZeroCapacity => 4
    case EmptyDispatch => 5
  }

  predicate InRuleOrder(rules: seq<Rule>) {
    forall i, j :: 0 <= i < j < |rules| ==> RuleNumber(rules[i]) <= RuleNumber(rules[j])
  }

  /** A report lists every broken rule, no kept one, in the published order. */
  ghost predicate Reports(d: seq<StageDesign>, rules: seq<Rule>) {
    && InRuleOrder(rules)
    && forall rule :: rule in rules <==> !Obeys(d, rule)
  }

  lemma FirstReportedIsFirstBroken(d: seq<StageDesign>, rules: seq<Rule>)
    requires Reports(d, rules)
    ensures FirstBroken(d) == if rules == [] then None else Some(rules[0])
  {
    var first := FirstBroken(d);
    assert rules != [] ==> rules[0] in rules;
    if first.Some? {
      assert first.value in rules;
      var i :| 0 <= i < |rules| && rules[i] == first.value;
      assert RuleNumber(rules[0]) <= RuleNumber(first.value);
    }
  }

  predicate Repeats(rules: seq<Rule>, rule: Rule, broken: bool) {
    (rules != [] <==> broken) && forall i :: 0 <= i < |rules| ==> rules[i] == rule
  }

  predicate IdsDifferBefore(p: Pipeline, upTo: nat)
    requires upTo <= |p.stages|
  {
    forall a, b :: 0 <= a < b < upTo ==> p.stages[a].id != p.stages[b].id
  }

  lemma OneMoreId(p: Pipeline, i: nat)
    requires i < |p.stages|
    ensures StageIdSet(p, i + 1) == StageIdSet(p, i) + {p.stages[i].id}
    ensures IdsDifferBefore(p, i + 1) <==> IdsDifferBefore(p, i) && p.stages[i].id !in StageIdSet(p, i)
  {
  }

  lemma IdsDiffer(p: Pipeline)
    ensures StageIdSet(p, 0) == {} && IdsDifferBefore(p, 0)
    ensures IdsDifferBefore(p, |p.stages|) <==> DistinctIds(Design(p))
  {
    var d := Design(p);
    assert forall a :: 0 <= a < |d| ==> d[a].id == p.stages[a].id;
  }

  method IdsOf(p: Pipeline) returns (ids: set<StageId>)
    ensures ids == StageIdSet(p, |p.stages|)
    ensures |ids| == |p.stages| <==> DistinctIds(Design(p))
  {
    ids := {};
    var i := 0;
    IdsDiffer(p);
    hide *;
    while i < |p.stages|
      invariant 0 <= i <= |p.stages| && ids == StageIdSet(p, i) && |ids| <= i
      invariant |ids| == i <==> IdsDifferBefore(p, i)
    {
      OneMoreId(p, i);
      ids := ids + {p.stages[i].id};
      i := i + 1;
    }
  }

  function StageIdSet(p: Pipeline, upTo: nat): set<StageId>
    requires upTo <= |p.stages|
  {
    set k | 0 <= k < upTo :: p.stages[k].id
  }

  /** Some stage among the first `i` reads an input that no stage provides. */
  predicate DanglesBefore(d: seq<StageDesign>, i: nat) {
    exists a :: 0 <= a < i && a < |d| && DanglesAt(d, a, |d[a].inputs|)
  }

  /** One of the first k inputs of stage a is provided by no stage. */
  predicate DanglesAt(d: seq<StageDesign>, a: nat, k: nat)
    requires a < |d|
  {
    exists m :: 0 <= m < k && m < |d[a].inputs| && !KnownId(d, d[a].inputs[m])
  }

  lemma OneMoreInput(d: seq<StageDesign>, a: nat, k: nat)
    requires a < |d| && k < |d[a].inputs|
    ensures DanglesAt(d, a, k + 1) <==> DanglesAt(d, a, k) || !KnownId(d, d[a].inputs[k])
  {
  }

  lemma OneMoreStage(d: seq<StageDesign>, i: nat)
    requires i < |d|
    ensures DanglesBefore(d, i + 1) <==> DanglesBefore(d, i) || DanglesAt(d, i, |d[i].inputs|)
  {
  }

  lemma DanglingIsDangling(d: seq<StageDesign>)
    ensures DanglesBefore(d, |d|) <==> !Obeys(d, DanglingInput)
  {
  }

  method DanglingInputs(p: Pipeline, ids: set<StageId>) returns (rules: seq<Rule>)
    requires ids == StageIdSet(p, |p.stages|)
    ensures Repeats(rules, DanglingInput, !Obeys(Design(p), DanglingInput))
  {
    ghost var d := Design(p);
    rules := [];
    var i := 0;
    assert !DanglesBefore(d, 0);
    hide DanglesBefore, DanglesAt, Obeys, KnownId, StageIdSet;
    while i < |p.stages|
      invariant 0 <= i <= |p.stages|
      invariant Repeats(rules, DanglingInput, DanglesBefore(d, i))
    {
      var k := 0;
      NoInputs(d, i);
      while k < |p.stages[i].inputs|
        invariant 0 <= k <= |p.stages[i].inputs|
        invariant Repeats(rules, DanglingInput, DanglesBefore(d, i) || DanglesAt(d, i, k))
      {
        IdsAreKnown(p, p.stages[i].inputs[k]);
        assert d[i].inputs[k] == p.stages[i].inputs[k];
        OneMoreInput(d, i, k);
        if p.stages[i].inputs[k] !in ids {
          rules := rules + [DanglingInput];
        }
        k := k + 1;
      }
      OneMoreStage(d, i);
      i := i + 1;
    }
    DanglingIsDangling(d);
  }

  lemma NoInputs(d: seq<StageDesign>, a: nat)
    requires a < |d|
    ensures !DanglesAt(d, a, 0)
  {
  }

  lemma IdsAreKnown(p: Pipeline, sid: StageId)
    ensures sid in StageIdSet(p, |p.stages|) <==> KnownId(Design(p), sid)
  {
  }

  method ZeroCapacities(p: Pipeline) returns (rules: seq<Rule>)
    ensures Repeats(rules, ZeroCapacity, !Obeys(Design(p), ZeroCapacity))
  {
    ghost var d := Design(p);
    rules := [];
    var i := 0;
    while i < |p.stages|
      invariant 0 <= i <= |p.stages|
      invariant Repeats(rules, ZeroCapacity, !CapacitiesPositive(d[..i]))
    {
      var s := p.stages[i];
      assert d[..i + 1] == d[..i] + [DesignOf(s)];
      if s.maxAttempts == 0 {
        rules := rules + [ZeroCapacity];
      }
      var k := 0;
      while k < |s.locks|
        invariant 0 <= k <= |s.locks|
        invariant Repeats(rules, ZeroCapacity,
                    !CapacitiesPositive(d[..i]) || s.maxAttempts == 0 || exists m :: 0 <= m < k && ZeroCap(s.locks[m]))
      {
        if ZeroCap(s.locks[k]) {
          rules := rules + [ZeroCapacity];
        }
        k := k + 1;
      }
      OneMoreCapacity(d, i);
      i := i + 1;
    }
    assert d[..i] == d;
  }

  lemma OneMoreCapacity(d: seq<StageDesign>, i: nat)
    requires i < |d|
    ensures CapacitiesPositive(d[..i + 1]) <==>
      CapacitiesPositive(d[..i]) && d[i].maxAttempts > 0
      && forall m :: 0 <= m < |d[i].locks| ==> !ZeroCap(d[i].locks[m])
  {
  }

  method EmptyDispatches(p: Pipeline) returns (rules: seq<Rule>)
    ensures Repeats(rules, EmptyDispatch, !Obeys(Design(p), EmptyDispatch))
  {
    ghost var d := Design(p);
    rules := [];
    var i := 0;
    while i < |p.stages|
      invariant 0 <= i <= |p.stages|
      invariant Repeats(rules, EmptyDispatch, !DispatchNamed(d[..i]))
    {
      var s := p.stages[i];
      assert d[..i + 1] == d[..i] + [DesignOf(s)];
      if s.dispatch.Some? && (IsBlank(s.dispatch.value.plugin) || IsBlank(s.dispatch.value.verb)) {
        rules := rules + [EmptyDispatch];
        assert d[..i + 1][i] == DesignOf(s);
      }
      i := i + 1;
    }
    assert d[..i] == d;
  }

  /** The report so far, when the first `n` rules have been checked. */
  ghost predicate ReportsUpTo(d: seq<StageDesign>, rules: seq<Rule>, n: nat) {
    && InRuleOrder(rules)
    && forall rule :: rule in rules <==> RuleNumber(rule) < n && !Obeys(d, rule)
  }

  lemma NextRule(d: seq<StageDesign>, rules: seq<Rule>, more: seq<Rule>, rule: Rule)
    requires ReportsUpTo(d, rules, RuleNumber(rule)) && Repeats(more, rule, !Obeys(d, rule))
    ensures ReportsUpTo(d, rules + more, RuleNumber(rule) + 1)
  {
    hide Obeys;
    assert more != [] ==> more[0] in more;
    assert forall i :: 0 <= i < |rules| ==> rules[i] in rules;
  }

  lemma NothingReported(d: seq<StageDesign>)
    ensures ReportsUpTo(d, [], 0)
  {
  }

  lemma AllReported(d: seq<StageDesign>, rules: seq<Rule>)
    requires ReportsUpTo(d, rules, 6)
    ensures Reports(d, rules)
  {
  }

  method Cyclic(p: Pipeline) returns (rules: seq<Rule>)
    ensures Repeats(rules, AcyclicRule, !Obeys(Design(p), AcyclicRule))
  {
    var search := new CycleSearch(Design(p));
    var loop_ := search.Cycle();
    rules := if loop_.Some? then [AcyclicRule] else [];
  }

  method EmptyOrDuplicate(p: Pipeline, ids: set<StageId>) returns (empty: seq<Rule>, duplicates: seq<Rule>)
    requires |ids| == |p.stages| <==> DistinctIds(Design(p))
    ensures Repeats(empty, EmptyStageList, !Obeys(Design(p), EmptyStageList))
    ensures Repeats(duplicates, DuplicateStageId, !Obeys(Design(p), DuplicateStageId))
  {
    empty := if p.stages == [] then [EmptyStageList] else [];
    duplicates := if |ids| != |p.stages| then [DuplicateStageId] else [];
  }

  method ValidationErrors(p: Pipeline) returns (rules: seq<Rule>)
    ensures Reports(Design(p), rules)
  {
    hide Obeys, Repeats, DistinctIds, Design, ReportsUpTo, Reports;
    ghost var d := Design(p);
    NothingReported(d);
    rules := Cyclic(p);
    NextRule(d, [], rules, AcyclicRule);
    assert rules == [] + rules;
    var ids := IdsOf(p);
    var empty, duplicates := EmptyOrDuplicate(p, ids);
    NextRule(d, rules, empty, EmptyStageList);
    NextRule(d, rules + empty, duplicates, DuplicateStageId);
    rules := rules + empty + duplicates;
    var dangling := DanglingInputs(p, ids);
    NextRule(d, rules, dangling, DanglingInput);
    rules := rules + dangling;
    var zeros := ZeroCapacities(p);
    NextRule(d, rules, zeros, ZeroCapacity);
    rules := rules + zeros;
    var unnamed := EmptyDispatches(p);
    NextRule(d, rules, unnamed, EmptyDispatch);
    rules := rules + unnamed;
    AllReported(d, rules);
  }

  method Validate(p: Pipeline) returns (broken: Option<Rule>)
    ensures broken == FirstBroken(Design(p))
  {
    var rules := ValidationErrors(p);
    FirstReportedIsFirstBroken(Design(p), rules);
    broken := if rules == [] then None else Some(rules[0]);
  }

  // ------------------------------------------------------------ loops over stages

  method StopEach(stages: seq<Stage>, failed: StageId) returns (out: seq<Stage>)
    ensures out == MapStages(stages, s => StopSibling(failed, s))
  {
    out := stages;
    var i := 0;
    while i < |out|
      invariant 0 <= i <= |out| == |stages|
      invariant forall k :: 0 <= k < i ==> out[k] == StopSibling(failed, stages[k])
      invariant forall k :: i <= k < |out| ==> out[k] == stages[k]
    {
      if out[i].id != failed && (out[i].state.Pending? || out[i].state.Failed?) {
        out := out[i := out[i].(state := StageState.Skipped)];
      }
      i := i + 1;
    }
  }

  method RearmEach(stages: seq<Stage>, target: StageId) returns (out: seq<Stage>)
    ensures out == MapStages(stages, s => RearmSibling(target, s))
  {
    out := stages;
    var i := 0;
    while i < |out|
      invariant 0 <= i <= |out| == |stages|
      invariant forall k :: 0 <= k < i ==> out[k] == RearmSibling(target, stages[k])
      invariant forall k :: i <= k < |out| ==> out[k] == stages[k]
    {
      var st := out[i].state;
      if out[i].id != target && (st.Failed? || st.Exhausted? || st.Cancelled? || st.Skipped?) {
        out := out[i := out[i].(state := StageState.Pending, attempts := 0)];
      }
      i := i + 1;
    }
  }

  method CancelEach(stages: seq<Stage>) returns (out: seq<Stage>)
    ensures out == MapStages(stages, CancelStage)
  {
    out := stages;
    var i := 0;
    while i < |out|
      invariant 0 <= i <= |out| == |stages|
      invariant forall k :: 0 <= k < i ==> out[k] == CancelStage(stages[k])
      invariant forall k :: i <= k < |out| ==> out[k] == stages[k]
    {
      var st := out[i].state;
      if st.Pending? || st.Running? || st.Failed? {
        out := out[i := out[i].(state := StageState.Cancelled)];
      }
      i := i + 1;
    }
  }

  method RequeueEach(stages: seq<Stage>) returns (out: seq<Stage>)
    ensures out == MapStages(stages, RequeueStage)
  {
    out := stages;
    var i := 0;
    while i < |out|
      invariant 0 <= i <= |out| == |stages|
      invariant forall k :: 0 <= k < i ==> out[k] == RequeueStage(stages[k])
      invariant forall k :: i <= k < |out| ==> out[k] == stages[k]
    {
      if out[i].state.Running? {
        out := out[i := out[i].(state := StageState.Pending)];
      }
      i := i + 1;
    }
  }

  // --------------------------------------------------------------------- registry

  /** What is at the snapshot path when the daemon opens it. */
  datatype SnapshotFile = NoFile | Unparsable | Runs(runs: seq<Pipeline>)

  datatype Quarantine = Corrupt | Invalid

  class PipelineRegistry {
    var pipelines: map<PipelineId, Pipeline>
    var order: seq<PipelineId>
    // The snapshot file's contents.
    var saved: seq<Pipeline>
    // The name under which the file found at opening was set aside, if it was.
    const setAside: Option<Quarantine>

    ghost function View(): Registry
      reads this
    {
      Registry(pipelines, order)
    }

    ghost predicate Valid()
      reads this
    {
      WellShaped(View())
    }

    /** The file says what the fields say. */
    ghost predicate Synced()
      reads this
    {
      saved == Persisted(View())
    }

    constructor ()
      ensures Valid() && Synced() && View() == EMPTY_REGISTRY
    {
      pipelines, order, saved, setAside := map[], [], [], None;
    }

    /** Open from a snapshot: text that is no list of runs, or one invalid run, sets the whole file aside. */
    constructor Open(file: SnapshotFile)
      ensures View() == if file.Runs? then Opened(file.runs) else EMPTY_REGISTRY
      ensures Synced()
      ensures setAside == match file
        case NoFile => None
        case Unparsable => Some(Corrupt)
        case Runs(runs) => if AllAccepted(runs) then None else Some(Invalid)
    {
      pipelines, order, saved := map[], [], [];
      var runs := if file.Runs? then file.runs else [];
      var valid := true;
      var i := 0;
      while i < |runs| && valid
        invariant 0 <= i <= |runs|
        invariant valid ==> forall k :: 0 <= k < i ==> Accepted(Design(runs[k]))
        invariant !valid ==> !AllAccepted(runs)
      {
        var broken := Validate(runs[i]);
        valid := broken.None?;
        i := i + 1;
      }
      setAside := if file.Unparsable? then Some(Corrupt) else if valid then None else Some(Invalid);
      new;
      if valid {
        i := 0;
        while i < |runs|
          invariant 0 <= i <= |runs| && View() == Rebuilt(runs[..i])
        {
          var p := runs[i];
          var stages := RequeueEach(p.stages);
          var q := p.(stages := stages, state := if p.state.Running? then PipelineState.Pending else p.state);
          assert q == Requeued(p);
          order := order + [p.id];
          pipelines := pipelines[p.id := q];
          assert runs[..i + 1][..|runs[..i + 1]| - 1] == runs[..i];
          i := i + 1;
        }
        assert runs[..i] == runs;
      }
      Persist();
    }

    method Persist()
      modifies this`saved
      ensures Synced()
    {
      var out := [];
      var i := 0;
      while i < |order|
        invariant 0 <= i <= |order| && out == PersistedUpTo(View(), i)
      {
        if order[i] in pipelines {
          out := out + [pipelines[order[i]]];
        }
        i := i + 1;
      }
      saved := out;
    }

    method FindActiveTwin(p: Pipeline) returns (found: bool)
      ensures found <==> HasActiveTwin(View(), p)
    {
      var i := 0;
      while i < |order|
        invariant 0 <= i <= |order|
        invariant forall k :: 0 <= k < i && order[k] in pipelines ==>
          pipelines[order[k]].IsTerminal() || !SameJob(pipelines[order[k]], p)
      {
        if order[i] in pipelines && !pipelines[order[i]].IsTerminal() && SameJob(pipelines[order[i]], p) {
          return true;
        }
        i := i + 1;
      }
      found := false;
    }

    method EvictOldest() returns (evicted: bool)
      modifies this`pipelines, this`order
      ensures var i := OldestTerminal(old(View()), 0);
        && evicted == (i < |old(order)|)
        && View() == if evicted then RemoveRun(old(View()), old(order)[i]) else old(View())
    {
      var i := 0;
      while i < |order| && !(order[i] in pipelines && pipelines[order[i]].IsTerminal())
        invariant 0 <= i <= |order|
        invariant OldestTerminal(View(), 0) == OldestTerminal(View(), i)
      {
        i := i + 1;
      }
      evicted := i < |order|;
      if evicted {
        var gone := order[i];
        order := Without(order, gone);
        pipelines := pipelines - {gone};
      }
    }

    method Submit(p: Pipeline) returns (answer: Result<PipelineId, SubmitError>)
      requires Valid()
      modifies this
      ensures (View(), answer) == SubmitRun(old(View()), p)
      ensures answer.Ok? ==> Synced()
      ensures |old(order)| <= MAX_PIPELINE_HISTORY ==>
        && (old(Synced()) ==> Synced())
        && (Valid() <==> answer.Err? || FreshIds(AfterEviction(old(View())), p))
    {
      if |order| <= MAX_PIPELINE_HISTORY {
        SubmitOutcome(View(), p);
      }
      hide WellShaped, FreshIds, PersistedUpTo;
      var broken := Validate(p);
      if broken.Some? {
        return Err(Broken(broken.value));
      }
      if p.id in pipelines {
        return Err(DuplicatePipeline);
      }
      var twin := FindActiveTwin(p);
      if twin {
        return Err(EquivalentActive);
      }
      while |pipelines| >= MAX_PIPELINE_HISTORY
        invariant MakeRoom(View()) == MakeRoom(old(View()))
        invariant saved == old(saved)
        decreases |pipelines|
      {
        ghost var before := View();
        var evicted := EvictOldest();
        if !evicted {
          return Err(HistoryFull);
        }
        RemovalShrinks(before, before.order[OldestTerminal(before, 0)]);
      }
      order := order + [p.id];
      pipelines := pipelines[p.id := p];
      answer := Ok(p.id);
      Persist();
    }

    method ReadyStages() returns (ready: seq<Slot>)
      ensures ready == Executor.ReadyStages(View())
    {
      ready := [];
      var i := 0;
      while i < |order|
        invariant 0 <= i <= |order| && ready == ReadyUpTo(View(), i)
      {
        if order[i] in pipelines {
          var p := pipelines[order[i]];
          var j := 0;
          while j < |p.stages|
            invariant 0 <= j <= |p.stages| && ready == ReadyUpTo(View(), i) + ReadyIn(p, j)
          {
            if IsReady(p, j) {
              ready := ready + [Slot(p.id, p.stages[j].id)];
            }
            j := j + 1;
          }
        }
        i := i + 1;
      }
    }

    method MarkStageRunning(slot: Slot) returns (ok: bool)
      modifies this
      ensures (View(), ok) == MarkRunning(old(View()), slot) && (old(Synced()) ==> Synced())
    {
      if slot.pipeline !in pipelines {
        return false;
      }
      var p := pipelines[slot.pipeline];
      var i := Index(p, slot.stage);
      if i == |p.stages| || !(p.stages[i].state.Pending? || p.stages[i].state.Failed?) {
        return false;
      }
      p := p.(stages := p.stages[i := p.stages[i].(state := StageState.Running)]);
      p := p.(state := PipelineState.Running);
      pipelines := pipelines[slot.pipeline := p];
      Persist();
      return true;
    }

    method CompleteStage(slot: Slot, artifacts: seq<Artifact>) returns (ok: bool)
      modifies this
      ensures (View(), ok) == Executor.CompleteStage(old(View()), slot, artifacts) && (old(Synced()) ==> Synced())
    {
      if slot.pipeline !in pipelines {
        return false;
      }
      var p := pipelines[slot.pipeline];
      var i := Index(p, slot.stage);
      if i == |p.stages| || !p.stages[i].state.Running? {
        return false;
      }
      p := p.(stages := p.stages[i := p.stages[i].(state := StageState.Done, artifacts := artifacts)]);
      p := Recompute(p);
      pipelines := pipelines[slot.pipeline := p];
      Persist();
      return true;
    }

    /** Scan the map in no particular order for the run that owns a stage. */
    method FindOwner(sid: StageId) returns (owner: Option<PipelineId>)
      requires Valid()
      ensures owner == Owner(View(), sid)
    {
      var left := pipelines.Keys;
      while left != {}
        invariant left <= pipelines.Keys
        invariant forall id :: id in pipelines && id !in left ==> !Holds(View(), Slot(id, sid))
      {
        var id :| id in left;
        if HasStage(pipelines[id], sid) {
          OwnerIs(View(), Slot(id, sid));
          return Some(id);
        }
        left := left - {id};
      }
      owner := None;
    }

    /** Out of attempts: exhaust the stage, fail the run, skip what has not started. */
    method Exhaust(id: PipelineId, i: nat, attempts: U8, error: string)
      requires id in pipelines && i < |pipelines[id].stages|
      modifies this`pipelines
      ensures View() == Put(old(View()), id, ExhaustedBy(old(pipelines)[id], i, attempts, error))
    {
      var p := pipelines[id];
      var stages := p.stages[i := p.stages[i].(state := StageState.Exhausted(error), attempts := attempts)];
      stages := StopEach(stages, p.stages[i].id);
      p := p.(stages := stages, state := PipelineState.Failed, error := Some(error));
      pipelines := pipelines[id := p];
    }

    method MarkStageFailed(sid: StageId, error: string) returns (owner: Option<PipelineId>)
      requires Valid()
      modifies this
      ensures (View(), owner) == MarkFailed(old(View()), sid, error)
      // A stage that is found but not running is left alone, and nothing is written.
      ensures owner.Some? || Owner(old(View()), sid).None? || old(Synced()) ==> Synced()
    {
      owner := FindOwner(sid);
      if owner.Some? {
        var p := pipelines[owner.value];
        var i := Index(p, sid);
        if !p.stages[i].state.Running? {
          return None;
        }
        var attempts := SaturatingInc(p.stages[i].attempts);
        if attempts >= p.stages[i].maxAttempts {
          Exhaust(owner.value, i, attempts, error);
        } else {
          var failed := p.stages[i].(state := StageState.Failed(error, attempts), attempts := attempts);
          p := p.(stages := p.stages[i := failed]);
          pipelines := pipelines[owner.value := p];
        }
      }
      Persist();
    }

    method ExhaustStage(sid: StageId, error: string) returns (owner: Option<PipelineId>)
      requires Valid()
      modifies this
      ensures (View(), owner) == Executor.ExhaustStage(old(View()), sid, error) && (old(Synced()) ==> Synced())
    {
      owner := FindOwner(sid);
      if owner.None? {
        return;
      }
      var p := pipelines[owner.value];
      var i := Index(p, sid);
      if !p.stages[i].state.Running? {
        return None;
      }
      Exhaust(owner.value, i, p.stages[i].maxAttempts, error);
      Persist();
    }

    method RetryFailedStage(sid: StageId) returns (owner: Option<PipelineId>)
      requires Valid()
      modifies this
      ensures (View(), owner) == RetryFailed(old(View()), sid) && (old(Synced()) ==> Synced())
    {
      owner := FindOwner(sid);
      if owner.None? {
        return;
      }
      var p := pipelines[owner.value];
      var i := Index(p, sid);
      if !p.IsActive() || !p.stages[i].state.Failed? {
        return None;
      }
      p := p.(stages := p.stages[i := p.stages[i].(state := StageState.Pending)]);
      pipelines := pipelines[owner.value := p];
      Persist();
    }

    method RetryStage(sid: StageId) returns (owner: Option<PipelineId>)
      requires Valid()
      modifies this
      ensures (View(), owner) == Executor.RetryStage(old(View()), sid) && (old(Synced()) ==> Synced())
    {
      owner := FindOwner(sid);
      if owner.None? {
        return;
      }
      var p := pipelines[owner.value];
      var i := Index(p, sid);
      var s := p.stages[i];
      if !s.state.Failed? && !s.state.Exhausted? {
        return None;
      }
      var wasExhausted := s.state.Exhausted?;
      var stages := p.stages[i := s.(state := StageState.Pending, attempts := if wasExhausted then 0 else s.attempts)];
      if wasExhausted {
        stages := RearmEach(stages, s.id);
      }
      p := p.(stages := stages, error := None);
      if p.state.Failed? {
        p := p.(state := PipelineState.Running);
      }
      pipelines := pipelines[owner.value := p];
      Persist();
    }

    method CancelPipeline(id: PipelineId)
      modifies this
      ensures View() == Executor.CancelPipeline(old(View()), id) && (old(Synced()) ==> Synced())
    {
      if id in pipelines {
        var p := pipelines[id];
        var stages := CancelEach(p.stages);
        p := p.(stages := stages, state := PipelineState.Cancelled);
        pipelines := pipelines[id := p];
        Persist();
      }
    }
  }
}
