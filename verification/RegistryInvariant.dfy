/**
  The registry as a whole: `order` lists exactly the runs it holds, the history is
  bounded, every run is sound, and what is written to disk comes back.
 */
module RegistryInvariant {
  import opened Wrappers
  import opened Sequences
  import opened Stages
  import opened Executor
  import opened RunInvariant

  /** `order` is a duplicate-free listing of the map's keys, and no stage id has two owners. */
  ghost predicate WellShaped(r: Registry) {
    && Distinct(r.order)
    && (forall id :: id in r.order <==> id in r.pipelines)
    && (forall id :: id in r.pipelines ==> r.pipelines[id].id == id)
    && (forall a, b, sid :: Holds(r, Slot(a, sid)) && Holds(r, Slot(b, sid)) ==> a == b)
  }

  ghost predicate AllSound(r: Registry) {
    forall id :: id in r.pipelines ==> RunInv(r.pipelines[id])
  }

  ghost predicate RegInv(r: Registry) {
    WellShaped(r) && |r.order| <= MAX_PIPELINE_HISTORY && AllSound(r)
  }

  lemma SizeIsOrderLength(r: Registry)
    requires WellShaped(r)
    ensures |r.pipelines| == |r.order|
  {
    DistinctCardinality(r.order);
    assert SeqSet(r.order) == r.pipelines.Keys;
  }

  lemma OwnerIs(r: Registry, slot: Slot)
    requires WellShaped(r) && Holds(r, slot)
    ensures Owner(r, slot.stage) == Some(slot.pipeline)
  {
  }

  lemma KeptHoldsSame(p: Pipeline, q: Pipeline)
    requires Kept(p, q)
    ensures |q.stages| == |p.stages|
    ensures forall sid :: Index(q, sid) == Index(p, sid)
    ensures forall i :: 0 <= i < |p.stages| ==>
      && q.stages[i].id == p.stages[i].id && q.stages[i].inputs == p.stages[i].inputs
      && q.stages[i].maxAttempts == p.stages[i].maxAttempts && q.stages[i].dispatch == p.stages[i].dispatch
  {
  }

  lemma PutHolds(r: Registry, id: PipelineId, q: Pipeline)
    requires id in r.pipelines && Kept(r.pipelines[id], q)
    ensures forall slot :: Holds(Put(r, id, q), slot) <==> Holds(r, slot)
  {
  }

  /** Replacing one run by a later version of itself keeps the registry sound. */
  lemma PutKeeps(r: Registry, id: PipelineId, q: Pipeline)
    requires RegInv(r) && id in r.pipelines
    requires Kept(r.pipelines[id], q) && Sound(q)
    ensures RegInv(Put(r, id, q))
  {
    PutHolds(r, id, q);
  }

  // ---------------------------------------------------------------- submission

  lemma {:induction false} WithoutIsCut(s: seq<PipelineId>, i: nat)
    requires Distinct(s) && i < |s|
    ensures Without(s, s[i]) == s[..i] + s[i + 1..]
  {
    if i == 0 {
      assert s[0] !in s[1..];
    } else {
      var rest := s[1..];
      WithoutIsCut(rest, i - 1);
      assert Without(s, s[i]) == [s[0]] + Without(rest, s[i]);
      hide Without;
      CutBehindFirst(s, i);
    }
  }

  lemma CutBehindFirst(s: seq<PipelineId>, i: nat)
    requires 0 < i < |s|
    ensures [s[0]] + (s[1..][..i - 1] + s[1..][i..]) == s[..i] + s[i + 1..]
  {
    assert s[1..][..i - 1] == s[1..i] && s[1..][i..] == s[i + 1..];
    assert [s[0]] + s[1..i] == s[..i];
  }

  predicate IsFull(r: Registry) {
    |r.order| == MAX_PIPELINE_HISTORY
  }

  /**
    No stage of the run has the id of a stage the registry holds. Nothing in the program makes
    it so: a graph that is run again keeps the stage ids it was authored with.
   */
  predicate FreshIds(r: Registry, p: Pipeline) {
    forall id, i :: id in r.pipelines && 0 <= i < |p.stages| ==> !HasStage(r.pipelines[id], p.stages[i].id)
  }

  lemma HasStageIsMembership(p: Pipeline, sid: StageId)
    ensures HasStage(p, sid) <==> exists i :: 0 <= i < |p.stages| && p.stages[i].id == sid
  {
  }

  lemma RemovalShrinks(r: Registry, id: PipelineId)
    requires id in r.pipelines
    ensures |RemoveRun(r, id).pipelines| == |r.pipelines| - 1
  {
  }

  lemma RemovalKeepsShape(r: Registry, id: PipelineId)
    requires WellShaped(r) && id in r.pipelines
    ensures WellShaped(RemoveRun(r, id))
  {
    var e := RemoveRun(r, id);
    WithoutStaysDistinct(r.order, id);
    forall a, b, sid | Holds(e, Slot(a, sid)) && Holds(e, Slot(b, sid)) ensures a == b {
      assert Holds(r, Slot(a, sid)) && Holds(r, Slot(b, sid));
    }
  }

  lemma {:induction false} WithoutStaysDistinct(s: seq<PipelineId>, id: PipelineId)
    requires Distinct(s)
    ensures Distinct(Without(s, id))
  {
    if s != [] {
      WithoutStaysDistinct(s[1..], id);
      assert s[0] !in Without(s[1..], id);
    }
  }

  function Insert(r: Registry, p: Pipeline): Registry {
    Registry(r.pipelines[p.id := p], r.order + [p.id])
  }

  /** A new run leaves the registry in shape exactly when it reuses no stage id. */
  lemma InsertionKeepsShapeIff(r: Registry, p: Pipeline)
    requires WellShaped(r) && p.id !in r.pipelines
    ensures WellShaped(Insert(r, p)) <==> FreshIds(r, p)
  {
    var t := Insert(r, p);
    if id, i :| id in r.pipelines && 0 <= i < |p.stages| && HasStage(r.pipelines[id], p.stages[i].id) {
      HasStageIsMembership(p, p.stages[i].id);
      assert Holds(t, Slot(id, p.stages[i].id)) && Holds(t, Slot(p.id, p.stages[i].id));
    } else {
      forall a, sid | Holds(t, Slot(a, sid)) && Holds(t, Slot(p.id, sid)) ensures a == p.id {
        HasStageIsMembership(p, sid);
      }
    }
  }

  /** The run that a submission to a full history pushes out. */
  function Evicted(r: Registry): (id: Option<PipelineId>)
    ensures id.Some? ==> IsFull(r) && id.value in r.pipelines && r.pipelines[id.value].IsTerminal()
  {
    var i := OldestTerminal(r, 0);
    if IsFull(r) && i < |r.order| then Some(r.order[i]) else None
  }

  function AfterEviction(r: Registry): Registry {
    if Evicted(r).Some? then RemoveRun(r, Evicted(r).value) else r
  }

  /** Making room removes exactly the oldest terminal run, and only from a full history. */
  lemma RoomIsMade(r: Registry)
    requires WellShaped(r) && |r.order| <= MAX_PIPELINE_HISTORY
    ensures var e := MakeRoom(r);
      && e == AfterEviction(r)
      && WellShaped(e)
      && |e.order| == |r.order| - (if Evicted(r).Some? then 1 else 0)
      && |e.pipelines| == |e.order|
  {
    SizeIsOrderLength(r);
    var i := OldestTerminal(r, 0);
    if IsFull(r) && i < |r.order| {
      var e := RemoveRun(r, r.order[i]);
      RemovalKeepsShape(r, r.order[i]);
      WithoutIsCut(r.order, i);
      SizeIsOrderLength(e);
    }
  }

  /**
    A submission is refused without a trace, or it appends the run to a history from
    which at most the oldest terminal run was dropped; the history never outgrows its
    bound and a full one refuses exactly when every run in it is active. The registry
    stays in shape exactly when the run reuses no stage id of a run still held.
   */
  lemma SubmitOutcome(r: Registry, p: Pipeline)
    requires WellShaped(r) && |r.order| <= MAX_PIPELINE_HISTORY
    ensures var (s, answer) := SubmitRun(r, p);
      && |s.order| <= MAX_PIPELINE_HISTORY
      && (WellShaped(s) <==> answer.Err? || FreshIds(AfterEviction(r), p))
      && (answer.Err? ==> s == r)
      && (answer.Ok? ==> answer.value == p.id && p.id !in r.pipelines && Accepted(Design(p)) && !HasActiveTwin(r, p)
                         && s == Insert(AfterEviction(r), p))
      && (answer == Err(HistoryFull) ==> IsFull(r) && Evicted(r).None?)
      && (IsFull(r) && Evicted(r).None? ==> answer.Err?)
  {
    RoomIsMade(r);
    if SubmitRun(r, p).1.Ok? {
      InsertionKeepsShapeIff(AfterEviction(r), p);
    }
    hide WellShaped, FreshIds, OldestTerminal;
  }

  lemma FreshAfterEviction(r: Registry, p: Pipeline)
    requires FreshIds(r, p)
    ensures FreshIds(AfterEviction(r), p)
  {
  }

  /** With the survivors in their order. */
  lemma EvictionKeepsOrder(r: Registry)
    requires WellShaped(r)
    ensures Evicted(r).Some? ==>
      var i := OldestTerminal(r, 0);
      && AfterEviction(r).order == r.order[..i] + r.order[i + 1..]
      && forall j :: 0 <= j < i ==> r.order[j] in r.pipelines && !r.pipelines[r.order[j]].IsTerminal()
  {
    var i := OldestTerminal(r, 0);
    if Evicted(r).Some? {
      WithoutIsCut(r.order, i);
      forall j | 0 <= j < i ensures r.order[j] in r.pipelines {
        assert r.order[j] in r.order;
      }
    }
  }

  lemma SubmitKeepsSound(r: Registry, p: Pipeline)
    requires RegInv(r) && (SubmitRun(r, p).1.Ok? ==> Sound(p) && FreshIds(r, p))
    ensures RegInv(SubmitRun(r, p).0)
  {
    SubmitOutcome(r, p);
    if SubmitRun(r, p).1.Ok? {
      FreshAfterEviction(r, p);
    }
    hide WellShaped, FreshIds, Sound;
  }

  /** A run is never evicted while it can still make progress. */
  lemma ActiveRunsSurviveSubmission(r: Registry, p: Pipeline, id: PipelineId)
    requires WellShaped(r) && |r.order| <= MAX_PIPELINE_HISTORY
    requires id in r.pipelines && !r.pipelines[id].IsTerminal()
    ensures var s := SubmitRun(r, p).0; id in s.pipelines && s.pipelines[id] == r.pipelines[id]
  {
    SubmitOutcome(r, p);
  }

  // ------------------------------------------------------------- equivalent runs

  /** No two active runs do the same job for the same subject. */
  ghost predicate ActiveRunsDiffer(r: Registry) {
    forall a, b ::
      (a in r.pipelines && b in r.pipelines && a != b && r.pipelines[a].IsActive() && r.pipelines[b].IsActive()) ==>
        !SameJob(r.pipelines[a], r.pipelines[b])
  }

  lemma NoTwinIsActive(r: Registry, p: Pipeline, a: PipelineId)
    requires WellShaped(r) && !HasActiveTwin(r, p) && a in r.pipelines && r.pipelines[a].IsActive()
    ensures !SameJob(r.pipelines[a], p)
  {
    hide Holds;
    assert a in r.order;
    var i :| 0 <= i < |r.order| && r.order[i] == a;
    assert !r.pipelines[r.order[i]].IsTerminal();
  }

  lemma InsertionKeepsRunsDifferent(r: Registry, e: Registry, p: Pipeline)
    requires ActiveRunsDiffer(r) && p.id !in r.pipelines
    requires forall id :: id in e.pipelines ==> id in r.pipelines && e.pipelines[id] == r.pipelines[id]
    requires forall a :: a in r.pipelines && r.pipelines[a].IsActive() ==> !SameJob(r.pipelines[a], p)
    ensures ActiveRunsDiffer(Insert(e, p))
  {
  }

  lemma SubmitKeepsActiveRunsDifferent(r: Registry, p: Pipeline)
    requires WellShaped(r) && |r.order| <= MAX_PIPELINE_HISTORY && ActiveRunsDiffer(r)
    ensures ActiveRunsDiffer(SubmitRun(r, p).0)
  {
    SubmitOutcome(r, p);
    hide WellShaped, SubmitRun, FreshIds, ActiveRunsDiffer, HasActiveTwin, SameJob, Insert;
    if SubmitRun(r, p).1.Ok? {
      forall a | a in r.pipelines && r.pipelines[a].IsActive() ensures !SameJob(r.pipelines[a], p) {
        NoTwinIsActive(r, p, a);
      }
      InsertionKeepsRunsDifferent(r, AfterEviction(r), p);
    }
  }

  /** Reviving a failed run by hand breaks it exactly when an equivalent run is active by now. */
  lemma RevivalKeepsActiveRunsDifferentIff(r: Registry, id: PipelineId, q: Pipeline)
    requires ActiveRunsDiffer(r) && id in r.pipelines && Kept(r.pipelines[id], q) && q.IsActive()
    ensures ActiveRunsDiffer(Put(r, id, q)) <==>
      forall b :: b in r.pipelines && b != id && r.pipelines[b].IsActive() ==> !SameJob(r.pipelines[b], r.pipelines[id])
  {
    var s := Put(r, id, q);
    if b :| b in r.pipelines && b != id && r.pipelines[b].IsActive() && SameJob(r.pipelines[b], r.pipelines[id]) {
      assert s.pipelines[b] == r.pipelines[b] && s.pipelines[id] == q;
    }
  }

  // ------------------------------------------------------------------ durability

  function RequeueAll(r: Registry): Registry {
    Registry(map id | id in r.pipelines :: Requeued(r.pipelines[id]), r.order)
  }

  lemma {:induction false} PersistedListsRuns(r: Registry, upTo: nat)
    requires WellShaped(r) && upTo <= |r.order|
    ensures |PersistedUpTo(r, upTo)| == upTo
    ensures forall i :: 0 <= i < upTo ==>
      r.order[i] in r.pipelines && PersistedUpTo(r, upTo)[i] == r.pipelines[r.order[i]]
  {
    if upTo > 0 {
      PersistedListsRuns(r, upTo - 1);
      assert r.order[upTo - 1] in r.order;
    }
  }

  /** Reading the runs back in order gives a registry that holds run i of the file at place i. */
  ghost predicate ListsRuns(b: Registry, runs: seq<Pipeline>) {
    && |b.order| == |runs|
    && (forall i :: 0 <= i < |runs| ==>
          b.order[i] == runs[i].id && runs[i].id in b.pipelines && b.pipelines[runs[i].id] == Requeued(runs[i]))
    && (forall id :: id in b.pipelines ==> id in b.order)
  }

  lemma OneMoreRunListed(b: Registry, init: seq<Pipeline>, last: Pipeline)
    requires ListsRuns(b, init) && forall i :: 0 <= i < |init| ==> init[i].id != last.id
    ensures ListsRuns(Registry(b.pipelines[last.id := Requeued(last)], b.order + [last.id]), init + [last])
  {
    hide Requeued;
  }

  lemma {:induction false} RebuiltListsRuns(runs: seq<Pipeline>)
    requires forall i, j :: 0 <= i < j < |runs| ==> runs[i].id != runs[j].id
    ensures ListsRuns(Rebuilt(runs), runs)
  {
    if runs != [] {
      var init, last := runs[..|runs| - 1], runs[|runs| - 1];
      RebuiltListsRuns(init);
      hide ListsRuns, Requeued;
      OneMoreRunListed(Rebuilt(init), init, last);
      assert init + [last] == runs;
    }
  }

  /** The run stored at place i of the order, once read back. */
  lemma RebuiltPlace(r: Registry, i: nat)
    requires WellShaped(r) && i < |r.order|
    ensures var (id, b) := (r.order[i], Rebuilt(Persisted(r)));
      && |b.order| == |r.order| && b.order[i] == id
      && id in r.pipelines && id in b.pipelines && b.pipelines[id] == Requeued(r.pipelines[id])
    ensures forall id :: id in Rebuilt(Persisted(r)).pipelines ==> id in Rebuilt(Persisted(r)).order
  {
    hide Rebuilt, Requeued, Holds;
    PersistedInOrder(r);
    assert r.order[i] in r.pipelines && r.pipelines[r.order[i]].id == r.order[i];
    hide WellShaped;
    RebuiltListsRuns(Persisted(r));
  }

  lemma PersistedInOrder(r: Registry)
    requires WellShaped(r)
    ensures var runs := Persisted(r);
      && |runs| == |r.order|
      && (forall i :: 0 <= i < |runs| ==> r.order[i] in r.pipelines && runs[i] == r.pipelines[r.order[i]])
      && (forall i, j :: 0 <= i < j < |runs| ==> runs[i].id != runs[j].id)
  {
    hide Holds;
    PersistedListsRuns(r, |r.order|);
    var runs := Persisted(r);
    forall i, j | 0 <= i < j < |runs| ensures runs[i].id != runs[j].id {
      assert r.order[i] != r.order[j];
    }
  }

  lemma RebuildUndoesPersist(r: Registry)
    requires WellShaped(r)
    ensures Rebuilt(Persisted(r)) == RequeueAll(r)
  {
    var b := Rebuilt(Persisted(r));
    assert forall id :: id in r.order <==> id in r.pipelines;
    if r.order == [] {
      PersistedListsRuns(r, 0);
    }
    forall i | 0 <= i < |r.order|
      ensures |b.order| == |r.order| && b.order[i] == r.order[i]
      ensures r.order[i] in b.pipelines && b.pipelines[r.order[i]] == Requeued(r.pipelines[r.order[i]])
    {
      RebuiltPlace(r, i);
    }
    hide WellShaped, Rebuilt, Requeued, Persisted;
    assert b.order == r.order;
    forall id | id in r.pipelines ensures id in b.pipelines && b.pipelines[id] == Requeued(r.pipelines[id]) {
      var i :| 0 <= i < |r.order| && r.order[i] == id;
    }
    if r.order != [] { RebuiltPlace(r, 0); }
    assert b.pipelines == RequeueAll(r).pipelines;
  }

  /** Nothing a registry wrote is ever quarantined: it comes back in order, with interrupted work re-queued. */
  lemma CrashRoundTrip(r: Registry)
    requires RegInv(r)
    ensures Opened(Persisted(r)) == RequeueAll(r)
  {
    RebuildUndoesPersist(r);
    PersistedListsRuns(r, |r.order|);
    forall i | 0 <= i < |r.order| ensures Accepted(Design(Persisted(r)[i])) {
      assert RunInv(r.pipelines[r.order[i]]);
    }
  }

  lemma RequeueKeepsRun(p: Pipeline)
    requires Sound(p)
    ensures var q := Requeued(p);
      && Sound(q) && Kept(p, q) && (q.IsActive() <==> p.IsActive())
      && forall sid :: HasStage(q, sid) <==> HasStage(p, sid)
  {
    RequeuedIsSound(p);
    KeptHoldsSame(p, Requeued(p));
    hide Sound, Kept, Index;
  }

  lemma RequeueKeeps(r: Registry)
    requires RegInv(r)
    ensures RegInv(RequeueAll(r))
    ensures forall slot :: Holds(RequeueAll(r), slot) <==> Holds(r, slot)
    ensures ActiveRunsDiffer(r) ==> ActiveRunsDiffer(RequeueAll(r))
  {
    hide Requeued, Sound, HasStage;
    var s := RequeueAll(r);
    forall id | id in r.pipelines
      ensures Sound(s.pipelines[id]) && Kept(r.pipelines[id], s.pipelines[id])
      ensures s.pipelines[id].IsActive() <==> r.pipelines[id].IsActive()
      ensures forall sid :: HasStage(s.pipelines[id], sid) <==> HasStage(r.pipelines[id], sid)
    {
      RequeueKeepsRun(r.pipelines[id]);
    }
  }

  /** Opening twice is opening once. */
  lemma SecondOpenChangesNothing(r: Registry)
    requires RegInv(r)
    ensures var once := Opened(Persisted(r)); Opened(Persisted(once)) == once
  {
    hide RegInv, Opened, Persisted, RequeueAll;
    CrashRoundTrip(r);
    RequeueKeeps(r);
    CrashRoundTrip(RequeueAll(r));
    RequeueTwice(r);
  }

  lemma RequeueTwice(r: Registry)
    requires RegInv(r)
    ensures RequeueAll(RequeueAll(r)) == RequeueAll(r)
  {
    forall id | id in r.pipelines ensures Requeued(Requeued(r.pipelines[id])) == Requeued(r.pipelines[id]) {
      assert RunInv(r.pipelines[id]);
      RequeuedIsSound(r.pipelines[id]);
    }
    hide RegInv, Requeued;
    assert RequeueAll(RequeueAll(r)).pipelines == RequeueAll(r).pipelines;
  }
}
