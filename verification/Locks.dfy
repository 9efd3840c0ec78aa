/**
  The resource-lock protocol.  Every worker takes its stage's locks one at a
  time in key order, holds what it has while it waits for the next, and gives
  everything back when it ends, for whatever reason.  Workers interleave freely.
 */
module Locks {
  import opened Stages
  import opened LockOrder

  type TaskId = nat

  datatype Semaphore = Semaphore(cap: nat, free: nat)

  type Table = map<Resource, Semaphore>

  /** A worker holds the first `got` locks of `order`; `waiting` means queued for the next one. */
  datatype Task = Task(order: seq<ResourceLock>, got: nat, waiting: bool)

  datatype Hall = Hall(table: Table, tasks: map<TaskId, Task>)

  const EMPTY_HALL := Hall(map[], map[])

  /** The capacity a semaphore gets when `l` is the first lock to ask for it. */
  function FirstCap(l: ResourceLock): nat {
    match l
    case Gpu => 1
    case Cpu(cap) => cap
    case Disk(cap) => cap
    case Api(_, cap) => cap
    case File(_) => 1
  }

  function LookedUp(t: Table, l: ResourceLock): Table {
    if ResourceOf(l) in t then t else t[ResourceOf(l) := Semaphore(FirstCap(l), FirstCap(l))]
  }

  /** How many of the locks are on the resource. */
  function Count(locks: seq<ResourceLock>, r: Resource): (n: nat)
    ensures n > 0 <==> exists i :: 0 <= i < |locks| && ResourceOf(locks[i]) == r
  {
    if locks == [] then 0
    else Count(locks[..|locks| - 1], r) + if ResourceOf(locks[|locks| - 1]) == r then 1 else 0
  }

  function Taken(t: Table, l: ResourceLock): Table
    requires ResourceOf(l) in t && t[ResourceOf(l)].free > 0
  {
    var r := ResourceOf(l);
    t[r := t[r].(free := t[r].free - 1)]
  }

  function GivenBack(t: Table, permits: seq<ResourceLock>): Table {
    map r | r in t :: t[r].(free := t[r].free + Count(permits, r))
  }

  function Holding(k: Task): seq<ResourceLock> {
    if k.got <= |k.order| then k.order[..k.got] else k.order
  }

  predicate Wants(k: Task) {
    k.waiting && k.got < |k.order|
  }

  datatype Event =
    | Begin(task: TaskId, locks: seq<ResourceLock>)
    | Ask(task: TaskId)      // look the next semaphore up and queue for it
    | Grant(task: TaskId)    // the queued permit arrives
    | Abort(task: TaskId)    // cancelled, timed out, refused by the capture reserve, or closed
    | Finish(task: TaskId)   // the work is over, whatever its result
  {
    /** Steps that neither bring new work nor give any up. */
    predicate IsProgress() {
      Ask? || Grant? || Finish?
    }
  }

  predicate Enabled(h: Hall, e: Event) {
    if e.Begin? then e.task !in h.tasks
    else
      && e.task in h.tasks
      && var k := h.tasks[e.task];
      match e
      case Ask(_) => k.got < |k.order| && !k.waiting
      case Grant(_) =>
        && Wants(k)
        && ResourceOf(k.order[k.got]) in h.table
        && h.table[ResourceOf(k.order[k.got])].free > 0
      case Abort(_) => k.got < |k.order|
      case Finish(_) => k.got == |k.order|
      case _ => false
  }

  function Apply(h: Hall, e: Event, printable: char -> bool): Hall
    requires Enabled(h, e)
  {
    match e
    case Begin(id, locks) => h.(tasks := h.tasks[id := Task(SortByKey(locks, printable), 0, false)])
    case Ask(id) =>
      var k := h.tasks[id];
      Hall(LookedUp(h.table, k.order[k.got]), h.tasks[id := k.(waiting := true)])
    case Grant(id) =>
      var k := h.tasks[id];
      Hall(Taken(h.table, k.order[k.got]), h.tasks[id := Task(k.order, k.got + 1, false)])
    case Abort(id) => Hall(GivenBack(h.table, Holding(h.tasks[id])), h.tasks - {id})
    case Finish(id) => Hall(GivenBack(h.table, Holding(h.tasks[id])), h.tasks - {id})
  }

  predicate Legal(h: Hall, es: seq<Event>, printable: char -> bool)
    decreases |es|
  {
    es == [] || (Enabled(h, es[0]) && Legal(Apply(h, es[0], printable), es[1..], printable))
  }

  function Play(h: Hall, es: seq<Event>, printable: char -> bool): Hall
    requires Legal(h, es, printable)
    decreases |es|
  {
    if es == [] then h else Play(Apply(h, es[0], printable), es[1..], printable)
  }

  // Sums over the workers.

  ghost function Tally(m: map<TaskId, Task>, f: Task -> nat): nat
    decreases |m|
  {
    if m == map[] then 0
    else
      NonEmpty(m);
      var k :| k in m;
      assert |m - {k}| < |m| by { Shrinks(m, k); }
      f(m[k]) + Tally(m - {k}, f)
  }

  lemma NonEmpty(m: map<TaskId, Task>)
    requires m != map[]
    ensures exists k :: k in m
  {
  }

  lemma Shrinks(m: map<TaskId, Task>, k: TaskId)
    requires k in m
    ensures |m - {k}| < |m|
  {
  }

  lemma {:induction false} TallyPick(m: map<TaskId, Task>, k: TaskId, f: Task -> nat)
    requires k in m
    ensures Tally(m, f) == f(m[k]) + Tally(m - {k}, f)
    decreases |m|
  {
    var j :| j in m && Tally(m, f) == f(m[j]) + Tally(m - {j}, f);
    if j != k {
      Shrinks(m, j);
      Shrinks(m, k);
      TallyPick(m - {j}, k, f);
      TallyPick(m - {k}, j, f);
      assert m - {j} - {k} == m - {k} - {j};
    }
  }

  lemma TallyAdd(m: map<TaskId, Task>, k: TaskId, t: Task, f: Task -> nat)
    requires k !in m
    ensures Tally(m[k := t], f) == Tally(m, f) + f(t)
  {
    TallyPick(m[k := t], k, f);
    assert m[k := t] - {k} == m;
  }

  lemma TallyChange(m: map<TaskId, Task>, k: TaskId, t: Task, f: Task -> nat)
    requires k in m
    ensures Tally(m[k := t], f) + f(m[k]) == Tally(m, f) + f(t)
  {
    TallyPick(m, k, f);
    TallyPick(m[k := t], k, f);
    assert m[k := t] - {k} == m - {k};
  }

  lemma TallyTwo(m: map<TaskId, Task>, j: TaskId, k: TaskId, f: Task -> nat)
    requires j in m && k in m && j != k
    ensures Tally(m, f) >= f(m[j]) + f(m[k])
  {
    TallyPick(m, j, f);
    TallyPick(m - {j}, k, f);
  }

  lemma {:induction false} TallyPositive(m: map<TaskId, Task>, f: Task -> nat)
    ensures Tally(m, f) > 0 ==> exists k :: k in m && f(m[k]) > 0
    decreases |m|
  {
    if Tally(m, f) > 0 {
      var k :| k in m && Tally(m, f) == f(m[k]) + Tally(m - {k}, f);
      if f(m[k]) == 0 {
        Shrinks(m, k);
        TallyPositive(m - {k}, f);
        var j :| j in m - {k} && f((m - {k})[j]) > 0;
        assert j in m && f(m[j]) > 0;
      }
    }
  }

  function PermitsOn(r: Resource): Task -> nat {
    k => Count(Holding(k), r)
  }

  /** Progress steps a worker still owes: two per lock to take, one to finish. */
  function Owed(k: Task): nat {
    if k.got <= |k.order| then 2 * (|k.order| - k.got) + (if k.waiting then 0 else 1) else 0
  }

  // What every run keeps.

  predicate TaskFits(k: Task, known: set<Resource>) {
    && k.got <= |k.order|
    && (k.waiting ==> k.got < |k.order| && ResourceOf(k.order[k.got]) in known)
    && forall i :: 0 <= i < k.got ==> ResourceOf(k.order[i]) in known
  }

  ghost predicate Balanced(h: Hall) {
    && (forall id :: id in h.tasks ==> TaskFits(h.tasks[id], h.table.Keys))
    && (forall r :: r in h.table ==> h.table[r].free + Tally(h.tasks, PermitsOn(r)) == h.table[r].cap)
    && (forall r :: r in h.table && (r.TheGpu? || r.TheFile?) ==> h.table[r].cap == 1)
  }

  lemma NoPermitsOutsideTable(h: Hall, r: Resource)
    requires Balanced(h) && r !in h.table
    ensures Tally(h.tasks, PermitsOn(r)) == 0
  {
    forall id | id in h.tasks ensures PermitsOn(r)(h.tasks[id]) == 0 {
      assert TaskFits(h.tasks[id], h.table.Keys);
    }
    TallyPositive(h.tasks, PermitsOn(r));
  }

  lemma OneMorePermit(k: Task, r: Resource)
    requires k.got < |k.order|
    ensures PermitsOn(r)(Task(k.order, k.got + 1, false))
      == PermitsOn(r)(k) + if ResourceOf(k.order[k.got]) == r then 1 else 0
  {
    assert k.order[..k.got + 1][..k.got] == k.order[..k.got];
  }

  lemma WaitingKeepsPermits(k: Task, r: Resource)
    ensures PermitsOn(r)(k.(waiting := true)) == PermitsOn(r)(k)
  {
  }

  lemma FirstCallersFit(t: Table, l: ResourceLock)
    ensures forall r :: r in LookedUp(t, l) ==> if r in t then LookedUp(t, l)[r] == t[r]
      else LookedUp(t, l)[r] == Semaphore(FirstCap(l), FirstCap(l)) && r == ResourceOf(l)
    ensures LookedUp(t, l).Keys == t.Keys + {ResourceOf(l)}
    ensures ResourceOf(l).TheGpu? || ResourceOf(l).TheFile? ==> FirstCap(l) == 1
  {
  }

  lemma AskKeepsBalanced(h: Hall, id: TaskId, printable: char -> bool)
    requires Balanced(h) && Enabled(h, Ask(id))
    ensures Balanced(Apply(h, Ask(id), printable))
  {
    hide Count, ResourceOf, Holding, PermitsOn, LookedUp, FirstCap;
    var h', k := Apply(h, Ask(id), printable), h.tasks[id];
    FirstCallersFit(h.table, k.order[k.got]);
    forall r | r in h'.table
      ensures h'.table[r].free + Tally(h'.tasks, PermitsOn(r)) == h'.table[r].cap
    {
      WaitingKeepsPermits(k, r);
      TallyChange(h.tasks, id, k.(waiting := true), PermitsOn(r));
      if r !in h.table { NoPermitsOutsideTable(h, r); }
    }
    forall j | j in h'.tasks ensures TaskFits(h'.tasks[j], h'.table.Keys) {
      assert TaskFits(h.tasks[j], h.table.Keys);
    }
  }

  lemma GrantKeepsBalanced(h: Hall, id: TaskId, printable: char -> bool)
    requires Balanced(h) && Enabled(h, Grant(id))
    ensures Balanced(Apply(h, Grant(id), printable))
  {
    hide Count, ResourceOf, Holding, PermitsOn;
    var h', k := Apply(h, Grant(id), printable), h.tasks[id];
    forall r | r in h'.table
      ensures h'.table[r].free + Tally(h'.tasks, PermitsOn(r)) == h'.table[r].cap
    {
      OneMorePermit(k, r);
      TallyChange(h.tasks, id, Task(k.order, k.got + 1, false), PermitsOn(r));
    }
    forall j | j in h'.tasks ensures TaskFits(h'.tasks[j], h'.table.Keys) {
      assert TaskFits(h.tasks[j], h.table.Keys);
    }
  }

  lemma LeaveKeepsBalanced(h: Hall, id: TaskId)
    requires Balanced(h) && id in h.tasks
    ensures Balanced(Hall(GivenBack(h.table, Holding(h.tasks[id])), h.tasks - {id}))
  {
    var h' := Hall(GivenBack(h.table, Holding(h.tasks[id])), h.tasks - {id});
    forall r | r in h'.table
      ensures h'.table[r].free + Tally(h'.tasks, PermitsOn(r)) == h'.table[r].cap
    {
      TallyPick(h.tasks, id, PermitsOn(r));
    }
    forall j | j in h'.tasks ensures TaskFits(h'.tasks[j], h'.table.Keys) {
      assert TaskFits(h.tasks[j], h.table.Keys);
    }
  }

  lemma BeginKeepsBalanced(h: Hall, id: TaskId, locks: seq<ResourceLock>, printable: char -> bool)
    requires Balanced(h) && Enabled(h, Begin(id, locks))
    ensures Balanced(Apply(h, Begin(id, locks), printable))
  {
    hide SortByKey, ResourceOf;
    var k := Task(SortByKey(locks, printable), 0, false);
    var h' := Apply(h, Begin(id, locks), printable);
    assert Holding(k) == [];
    forall r | r in h'.table
      ensures h'.table[r].free + Tally(h'.tasks, PermitsOn(r)) == h'.table[r].cap
    {
      TallyAdd(h.tasks, id, k, PermitsOn(r));
    }
  }

  /** Held and free permits add up to the capacity the first caller fixed, which nothing changes. */
  lemma StepKeepsBalanced(h: Hall, e: Event, printable: char -> bool)
    requires Balanced(h) && Enabled(h, e)
    ensures Balanced(Apply(h, e, printable))
    ensures forall r :: r in h.table ==>
      r in Apply(h, e, printable).table && Apply(h, e, printable).table[r].cap == h.table[r].cap
  {
    match e {
      case Begin(id, locks) => BeginKeepsBalanced(h, id, locks, printable);
      case Ask(id) => AskKeepsBalanced(h, id, printable);
      case Grant(id) => GrantKeepsBalanced(h, id, printable);
      case Abort(id) => LeaveKeepsBalanced(h, id);
      case Finish(id) => LeaveKeepsBalanced(h, id);
    }
  }

  lemma {:induction false} PermitsAddUp(h: Hall, es: seq<Event>, printable: char -> bool)
    requires Balanced(h) && Legal(h, es, printable)
    ensures Balanced(Play(h, es, printable))
    ensures forall r :: r in h.table ==>
      r in Play(h, es, printable).table && Play(h, es, printable).table[r].cap == h.table[r].cap
    decreases |es|
  {
    hide Balanced;
    if es != [] {
      StepKeepsBalanced(h, es[0], printable);
      PermitsAddUp(Apply(h, es[0], printable), es[1..], printable);
    }
  }

  predicate Holds(k: Task, r: Resource) {
    exists i :: 0 <= i < |Holding(k)| && ResourceOf(Holding(k)[i]) == r
  }

  predicate BothHold(h: Hall, a: TaskId, b: TaskId, r: Resource) {
    a in h.tasks && b in h.tasks && Holds(h.tasks[a], r) && Holds(h.tasks[b], r)
  }

  /** The graphics card and any one file are never held by two workers at once. */
  lemma ExclusiveLocks(es: seq<Event>, printable: char -> bool)
    requires Legal(EMPTY_HALL, es, printable)
    ensures forall a, b, r ::
      BothHold(Play(EMPTY_HALL, es, printable), a, b, r) && (r.TheGpu? || r.TheFile?) ==> a == b
  {
    PermitsAddUp(EMPTY_HALL, es, printable);
    var h := Play(EMPTY_HALL, es, printable);
    forall a, b, r | BothHold(h, a, b, r) && (r.TheGpu? || r.TheFile?) ensures a == b {
      OneHolder(h, a, b, r);
    }
  }

  lemma OneHolder(h: Hall, a: TaskId, b: TaskId, r: Resource)
    requires Balanced(h) && BothHold(h, a, b, r) && (r.TheGpu? || r.TheFile?)
    ensures a == b
  {
    assert TaskFits(h.tasks[a], h.table.Keys);
    assert PermitsOn(r)(h.tasks[a]) > 0 && PermitsOn(r)(h.tasks[b]) > 0;
    if a != b {
      TallyTwo(h.tasks, a, b, PermitsOn(r));
    }
  }

  // No worker waits for ever.

  /** Lists that name each resource once, with room for at least one holder. */
  predicate Reasonable(e: Event) {
    e.Begin? ==> DifferentResources(e.locks) && forall l :: l in e.locks ==> FirstCap(l) > 0
  }

  predicate Climbing(h: Hall, printable: char -> bool) {
    && (forall id :: id in h.tasks ==> Ascending(h.tasks[id].order, printable))
    && (forall id, l :: id in h.tasks && l in h.tasks[id].order ==> FirstCap(l) > 0)
    && (forall r :: r in h.table ==> h.table[r].cap > 0)
  }

  lemma StepKeepsClimbing(h: Hall, e: Event, printable: char -> bool)
    requires Climbing(h, printable) && Enabled(h, e) && Reasonable(e)
    ensures Climbing(Apply(h, e, printable), printable)
  {
    hide Ascending, SortByKey;
    if e.Begin? {
      SortAscends(e.locks, printable);
      var sorted := SortByKey(e.locks, printable);
      forall l | l in sorted ensures FirstCap(l) > 0 {
        assert l in multiset(sorted);
      }
    } else if e.Ask? {
      var k := h.tasks[e.task];
      assert k.order[k.got] in k.order;
    }
  }

  /** Of the waiting workers, one wants a resource that no other worker's wish comes after. */
  lemma {:induction false} LastWish(h: Hall, ids: set<TaskId>, printable: char -> bool) returns (top: TaskId)
    requires ids != {} && forall id :: id in ids ==> id in h.tasks && Wants(h.tasks[id])
    ensures top in ids
    ensures forall id :: id in ids ==> !Precedes(Wish(h.tasks[top]), Wish(h.tasks[id]), printable)
    decreases ids
  {
    hide Precedes, ResourceOf;
    var x :| x in ids;
    top := x;
    IrreflexiveOrder(Wish(h.tasks[x]), printable);
    if ids != {x} {
      var y := LastWish(h, ids - {x}, printable);
      var wx, wy := Wish(h.tasks[x]), Wish(h.tasks[y]);
      if Precedes(wx, wy, printable) || wx == wy {
        top := y;
        if wx != wy { ResourceOrderIsTotal(wx, wy, printable); }
      } else {
        ResourceOrderIsTotal(wx, wy, printable);
        forall id | id in ids && id != x ensures !Precedes(wx, Wish(h.tasks[id]), printable) {
          if Precedes(wx, Wish(h.tasks[id]), printable) {
            ResourceOrderIsTransitive(wy, wx, Wish(h.tasks[id]), printable);
          }
        }
      }
    }
  }

  function Wish(k: Task): Resource
    requires Wants(k)
  {
    ResourceOf(k.order[k.got])
  }

  lemma {:induction false} NeverBeforeItself(s: string)
    ensures !LexLess(s, s)
  {
    if s != [] { NeverBeforeItself(s[1..]); }
  }

  lemma IrreflexiveOrder(r: Resource, printable: char -> bool)
    ensures !Precedes(r, r, printable)
  {
    NeverBeforeItself(Stem(r, printable));
  }

  predicate CanMove(h: Hall, id: TaskId) {
    Enabled(h, Ask(id)) || Enabled(h, Grant(id)) || Enabled(h, Finish(id))
  }

  lemma PermitMeansLock(k: Task, r: Resource) returns (i: nat)
    requires k.got <= |k.order| && PermitsOn(r)(k) > 0
    ensures i < k.got && ResourceOf(k.order[i]) == r
  {
    i :| 0 <= i < |Holding(k)| && ResourceOf(Holding(k)[i]) == r;
  }

  lemma HolderOf(h: Hall, id: TaskId) returns (holder: TaskId, i: nat)
    requires Balanced(h) && id in h.tasks && Wants(h.tasks[id]) && !Enabled(h, Grant(id))
    requires forall r :: r in h.table ==> h.table[r].cap > 0
    ensures holder in h.tasks && h.tasks[holder].got <= |h.tasks[holder].order|
    ensures i < h.tasks[holder].got && ResourceOf(h.tasks[holder].order[i]) == Wish(h.tasks[id])
  {
    var r := Wish(h.tasks[id]);
    assert TaskFits(h.tasks[id], h.table.Keys);
    hide ResourceOf, Holding, PermitsOn, Count, Wish;
    TallyPositive(h.tasks, PermitsOn(r));
    holder :| holder in h.tasks && PermitsOn(r)(h.tasks[holder]) > 0;
    assert TaskFits(h.tasks[holder], h.table.Keys);
    i := PermitMeansLock(h.tasks[holder], r);
  }

  /** A worker stuck on a resource faces a holder that wants a resource further up. */
  lemma HolderWantsMore(h: Hall, id: TaskId, printable: char -> bool) returns (holder: TaskId)
    requires Balanced(h) && Climbing(h, printable)
    requires id in h.tasks && Wants(h.tasks[id]) && !Enabled(h, Grant(id))
    ensures holder in h.tasks
    ensures !Enabled(h, Finish(holder)) ==>
      h.tasks[holder].got < |h.tasks[holder].order|
      && Precedes(Wish(h.tasks[id]), ResourceOf(h.tasks[holder].order[h.tasks[holder].got]), printable)
  {
    hide Precedes, ResourceOf, Balanced, Wish;
    var i;
    holder, i := HolderOf(h, id);
    assert Ascending(h.tasks[holder].order, printable);
  }

  /** While any worker is left, one of them can take its next step without anybody giving up. */
  lemma SomeoneCanMove(h: Hall, printable: char -> bool) returns (id: TaskId)
    requires Balanced(h) && Climbing(h, printable) && h.tasks != map[]
    ensures id in h.tasks && CanMove(h, id)
  {
    hide Precedes, ResourceOf, Climbing, Balanced;
    if x :| x in h.tasks && CanMove(h, x) {
      id := x;
    } else {
      forall x | x in h.tasks ensures Wants(h.tasks[x]) {
        TaskIsSomewhere(h, x);
      }
      NonEmpty(h.tasks);
      var top := LastWish(h, h.tasks.Keys, printable);
      id := HolderWantsMore(h, top, printable);
    }
  }

  lemma TaskIsSomewhere(h: Hall, id: TaskId)
    requires Balanced(h) && id in h.tasks
    ensures Enabled(h, Ask(id)) || Wants(h.tasks[id]) || Enabled(h, Finish(id))
  {
  }

  /**
    Deadlock freedom over every run: if anybody is queued, then somebody holds all the
    locks it needs, or somebody has yet to queue, or some queued permit is there to be taken.
   */
  lemma {:induction false} NoDeadlock(h: Hall, es: seq<Event>, printable: char -> bool)
    requires Balanced(h) && Climbing(h, printable)
    requires Legal(h, es, printable) && forall i :: 0 <= i < |es| ==> Reasonable(es[i])
    ensures Balanced(Play(h, es, printable)) && Climbing(Play(h, es, printable), printable)
    ensures var h' := Play(h, es, printable);
      h'.tasks != map[] ==> exists id :: id in h'.tasks && CanMove(h', id)
    decreases |es|
  {
    hide Balanced, Climbing, CanMove;
    if es == [] {
      if h.tasks != map[] {
        var id := SomeoneCanMove(h, printable);
      }
    } else {
      StepKeepsBalanced(h, es[0], printable);
      StepKeepsClimbing(h, es[0], printable);
      NoDeadlock(Apply(h, es[0], printable), es[1..], printable);
    }
  }

  function OwedBy(): Task -> nat {
    k => Owed(k)
  }

  lemma ProgressPaysOne(h: Hall, e: Event, printable: char -> bool)
    requires Balanced(h) && Enabled(h, e) && e.IsProgress()
    ensures Tally(Apply(h, e, printable).tasks, OwedBy()) + 1 == Tally(h.tasks, OwedBy())
  {
    var id := e.task;
    assert TaskFits(h.tasks[id], h.table.Keys);
    TallyPick(h.tasks, id, OwedBy());
    if !e.Finish? {
      TallyChange(h.tasks, id, Apply(h, e, printable).tasks[id], OwedBy());
    }
  }

  ghost predicate AtRest(h: Hall) {
    forall id :: id in h.tasks ==> !CanMove(h, id)
  }

  lemma RestMeansDone(h: Hall, printable: char -> bool)
    requires Balanced(h) && Climbing(h, printable)
    ensures AtRest(h) <==> Tally(h.tasks, OwedBy()) == 0
    ensures Tally(h.tasks, OwedBy()) == 0 <==> h.tasks == map[]
  {
    hide CanMove, Climbing;
    if h.tasks != map[] {
      var id := SomeoneCanMove(h, printable);
      TallyPick(h.tasks, id, OwedBy());
      assert TaskFits(h.tasks[id], h.table.Keys);
    }
  }

  /**
    With no timeout, no cancellation and no new work, every schedule ends after exactly the
    steps owed, and it can only end once every worker has had all its locks and finished.
   */
  lemma {:induction false} EveryWaiterIsServed(h: Hall, es: seq<Event>, printable: char -> bool)
    requires Balanced(h) && Climbing(h, printable)
    requires Legal(h, es, printable) && forall i :: 0 <= i < |es| ==> es[i].IsProgress()
    ensures |es| <= Tally(h.tasks, OwedBy())
    ensures AtRest(Play(h, es, printable)) <==> |es| == Tally(h.tasks, OwedBy())
    ensures |es| == Tally(h.tasks, OwedBy()) <==> Play(h, es, printable).tasks == map[]
    decreases |es|
  {
    hide Climbing, AtRest, Enabled, Balanced, Apply;
    if es == [] {
      RestMeansDone(h, printable);
    } else {
      ProgressPaysOne(h, es[0], printable);
      StepKeepsBalanced(h, es[0], printable);
      StepKeepsClimbing(h, es[0], printable);
      EveryWaiterIsServed(Apply(h, es[0], printable), es[1..], printable);
    }
  }

  // Why the hypotheses and the sort are needed.

  function BlockingRun(): seq<Event> {
    [Begin(0, [Cpu(1), Cpu(1)]), Ask(0), Grant(0), Ask(0)]
  }

  /** A list naming one resource twice can block on itself: nothing but giving up is left. */
  lemma RepeatedLockBlocksItself(printable: char -> bool)
    ensures Legal(EMPTY_HALL, BlockingRun(), printable)
    ensures Play(EMPTY_HALL, BlockingRun(), printable).tasks != map[]
    ensures AtRest(Play(EMPTY_HALL, BlockingRun(), printable))
  {
    var taken: Table := map[TheCpu := Semaphore(1, 0)];
    CpuTables();
    hide Enabled, Apply, AtRest, LookedUp, Legal, Play, Solo;
    SoloBegins(printable);
    SoloAsks(map[], 0, printable);
    SoloTakes(printable);
    SoloAsks(taken, 1, printable);
    BeginsFree(0, [Cpu(1), Cpu(1)]);
    PlayFour(EMPTY_HALL, Begin(0, [Cpu(1), Cpu(1)]), Ask(0), Grant(0), Ask(0), printable);
    SoloIsStuck();
  }

  function Solo(table: Table, got: nat, waiting: bool): Hall {
    Hall(table, map[0 := Task([Cpu(1), Cpu(1)], got, waiting)])
  }

  lemma CpuTables()
    ensures LookedUp(map[], Cpu(1)) == map[TheCpu := Semaphore(1, 1)]
    ensures var t: Table := map[TheCpu := Semaphore(1, 0)]; LookedUp(t, Cpu(1)) == t
  {
  }

  lemma BeginsFree(id: TaskId, locks: seq<ResourceLock>)
    ensures Enabled(EMPTY_HALL, Begin(id, locks))
  {
  }

  lemma SoloBegins(printable: char -> bool)
    ensures Apply(EMPTY_HALL, Begin(0, [Cpu(1), Cpu(1)]), printable) == Solo(map[], 0, false)
  {
    PairStaysAPair(Cpu(1), printable);
    hide SortByKey;
  }

  lemma SoloAsks(table: Table, got: nat, printable: char -> bool)
    requires got < 2
    ensures Enabled(Solo(table, got, false), Ask(0))
    ensures Apply(Solo(table, got, false), Ask(0), printable) == Solo(LookedUp(table, Cpu(1)), got, true)
  {
  }

  lemma SoloTakes(printable: char -> bool)
    ensures var h := Solo(map[TheCpu := Semaphore(1, 1)], 0, true);
      Enabled(h, Grant(0)) && Apply(h, Grant(0), printable) == Solo(map[TheCpu := Semaphore(1, 0)], 1, false)
  {
  }

  lemma SoloIsStuck()
    ensures var h := Solo(map[TheCpu := Semaphore(1, 0)], 1, true);
      h.tasks != map[] && AtRest(h)
  {
  }

  lemma PairStaysAPair(c: ResourceLock, printable: char -> bool)
    ensures SortByKey([c, c], printable) == [c, c]
  {
  }

  lemma PlayFour(h: Hall, a: Event, b: Event, c: Event, d: Event, printable: char -> bool)
    requires Enabled(h, a)
    requires Enabled(Apply(h, a, printable), b)
    requires Enabled(Apply(Apply(h, a, printable), b, printable), c)
    requires Enabled(Apply(Apply(Apply(h, a, printable), b, printable), c, printable), d)
    ensures Legal(h, [a, b, c, d], printable)
    ensures Play(h, [a, b, c, d], printable)
      == Apply(Apply(Apply(Apply(h, a, printable), b, printable), c, printable), d, printable)
  {
    hide Enabled, Apply;
    var h1 := Apply(h, a, printable);
    var h2 := Apply(h1, b, printable);
    var h3 := Apply(h2, c, printable);
    assert [d][1..] == [] && Legal(h3, [d], printable);
    assert [c, d][1..] == [d] && Legal(h2, [c, d], printable);
    assert [b, c, d][1..] == [c, d] && Legal(h1, [b, c, d], printable);
    assert [a, b, c, d][1..] == [b, c, d];
    assert Play(h3, [d], printable) == Apply(h3, d, printable);
    assert Play(h2, [c, d], printable) == Play(h3, [d], printable);
    assert Play(h1, [b, c, d], printable) == Play(h2, [c, d], printable);
  }

  function Two(table: Table, a: Task, b: Task): Hall {
    Hall(table, map[0 := a, 1 := b])
  }

  function FirstLocks(): seq<Event> {
    [Ask(0), Grant(0), Ask(1), Grant(1)]
  }

  function CrossingRun(): seq<Event> {
    FirstLocks() + [Ask(0)] + [Ask(1)]
  }

  /** Two workers about to take their locks in the orders their stages declare, not in key order. */
  function DeclaredHall(): Hall {
    Begun([Gpu, File("x")], [File("x"), Gpu])
  }

  function BothTaken(): Table {
    map[TheGpu := Semaphore(1, 0), TheFile("x") := Semaphore(1, 0)]
  }

  function CrossedHall(): Hall {
    Two(BothTaken(), Task([Gpu, File("x")], 1, true), Task([File("x"), Gpu], 1, true))
  }

  /** Without the sort they come to wait for each other, with every permit accounted for. */
  lemma UnsortedOrdersDeadlock(printable: char -> bool)
    ensures Legal(DeclaredHall(), CrossingRun(), printable)
    ensures Play(DeclaredHall(), CrossingRun(), printable) == CrossedHall()
    ensures CrossedHall().tasks != map[] && AtRest(CrossedHall())
    ensures Balanced(CrossedHall())
  {
    hide Tally, Count, Holding, PermitsOn;
    CrossedIsStuck();
    hide AtRest;
    CrossedPermits();
    CrossedFits();
    hide TaskFits;
    CrossedTables();
    hide LookedUp, Taken, Legal, Play, CrossingRun, TakeTheirFirst;
    WorkersCross([Gpu, File("x")], [File("x"), Gpu], map[TheGpu := Semaphore(1, 1)], map[TheGpu := Semaphore(1, 0)],
                 map[TheGpu := Semaphore(1, 0), TheFile("x") := Semaphore(1, 1)], BothTaken(), printable);
  }

  lemma FirstOfTwoMoves(table: Table, order: seq<ResourceLock>, got: nat, b: Task, printable: char -> bool)
    requires got < |order|
    ensures var (h, asking) := (Two(table, Task(order, got, false), b), Two(table, Task(order, got, true), b));
      && Enabled(h, Ask(0))
      && Apply(h, Ask(0), printable) == Two(LookedUp(table, order[got]), Task(order, got, true), b)
      && (ResourceOf(order[got]) in table && table[ResourceOf(order[got])].free > 0 ==>
            && Enabled(asking, Grant(0))
            && Apply(asking, Grant(0), printable) == Two(Taken(table, order[got]), Task(order, got + 1, false), b))
  {
    hide LookedUp, Taken;
  }

  lemma SecondOfTwoMoves(table: Table, a: Task, order: seq<ResourceLock>, got: nat, printable: char -> bool)
    requires got < |order|
    ensures var (h, asking) := (Two(table, a, Task(order, got, false)), Two(table, a, Task(order, got, true)));
      && Enabled(h, Ask(1))
      && Apply(h, Ask(1), printable) == Two(LookedUp(table, order[got]), a, Task(order, got, true))
      && (ResourceOf(order[got]) in table && table[ResourceOf(order[got])].free > 0 ==>
            && Enabled(asking, Grant(1))
            && Apply(asking, Grant(1), printable) == Two(Taken(table, order[got]), a, Task(order, got + 1, false)))
  {
    hide LookedUp, Taken;
  }

  lemma CrossedTables()
    ensures TakeTheirFirst([Gpu, File("x")], [File("x"), Gpu], map[TheGpu := Semaphore(1, 1)],
                           map[TheGpu := Semaphore(1, 0)],
                           map[TheGpu := Semaphore(1, 0), TheFile("x") := Semaphore(1, 1)], BothTaken())
    ensures LookedUp(BothTaken(), Gpu) == BothTaken() && LookedUp(BothTaken(), File("x")) == BothTaken()
  {
  }

  lemma OneMoreEvent(h: Hall, es: seq<Event>, e: Event, printable: char -> bool)
    requires Legal(h, es, printable) && Enabled(Play(h, es, printable), e)
    ensures Legal(h, es + [e], printable)
    ensures Play(h, es + [e], printable) == Apply(Play(h, es, printable), e, printable)
    decreases |es|
  {
    hide Enabled, Apply;
    if es == [] {
      assert [e][1..] == [] && es + [e] == [e];
    } else {
      assert (es + [e])[1..] == es[1..] + [e];
      OneMoreEvent(Apply(h, es[0], printable), es[1..], e, printable);
    }
  }

  function Begun(a: seq<ResourceLock>, b: seq<ResourceLock>): Hall {
    Two(map[], Task(a, 0, false), Task(b, 0, false))
  }

  /** The first worker asks for and gets the first lock of its list, then the second worker does. */
  predicate TakeTheirFirst(a: seq<ResourceLock>, b: seq<ResourceLock>, t1: Table, t2: Table, t3: Table, t4: Table) {
    && |a| == |b| == 2
    && LookedUp(map[], a[0]) == t1
    && ResourceOf(a[0]) in t1 && t1[ResourceOf(a[0])].free > 0 && Taken(t1, a[0]) == t2
    && LookedUp(t2, b[0]) == t3
    && ResourceOf(b[0]) in t3 && t3[ResourceOf(b[0])].free > 0 && Taken(t3, b[0]) == t4
  }

  lemma FirstLocksTaken(a: seq<ResourceLock>, b: seq<ResourceLock>, t1: Table, t2: Table, t3: Table, t4: Table,
                        printable: char -> bool)
    requires TakeTheirFirst(a, b, t1, t2, t3, t4)
    ensures Legal(Begun(a, b), FirstLocks(), printable)
    ensures Play(Begun(a, b), FirstLocks(), printable) == Two(t4, Task(a, 1, false), Task(b, 1, false))
  {
    hide Enabled, Apply, LookedUp, Taken, Legal, Play, Two, ResourceOf;
    FirstOfTwoMoves(map[], a, 0, Task(b, 0, false), printable);
    FirstOfTwoMoves(t1, a, 0, Task(b, 0, false), printable);
    SecondOfTwoMoves(t2, Task(a, 1, false), b, 0, printable);
    SecondOfTwoMoves(t3, Task(a, 1, false), b, 0, printable);
    PlayFour(Begun(a, b), Ask(0), Grant(0), Ask(1), Grant(1), printable);
  }

  lemma WorkersCross(a: seq<ResourceLock>, b: seq<ResourceLock>, t1: Table, t2: Table, t3: Table, t4: Table,
                     printable: char -> bool)
    requires TakeTheirFirst(a, b, t1, t2, t3, t4) && LookedUp(t4, a[1]) == t4 && LookedUp(t4, b[1]) == t4
    ensures Legal(Begun(a, b), CrossingRun(), printable)
    ensures Play(Begun(a, b), CrossingRun(), printable) == Two(t4, Task(a, 1, true), Task(b, 1, true))
  {
    FirstLocksTaken(a, b, t1, t2, t3, t4, printable);
    hide Enabled, Apply, LookedUp, Taken, Legal, Play, Two, FirstLocks, Begun, ResourceOf;
    FirstOfTwoMoves(t4, a, 1, Task(b, 1, false), printable);
    SecondOfTwoMoves(t4, Task(a, 1, true), b, 1, printable);
    OneMoreEvent(Begun(a, b), FirstLocks(), Ask(0), printable);
    OneMoreEvent(Begun(a, b), FirstLocks() + [Ask(0)], Ask(1), printable);
  }

  // Two workers with one list that names a resource as often as its capacity.

  const PAIR_OF_LOCKS := [Cpu(2), Cpu(2)]

  function SharingRun(): seq<Event> {
    [Begin(0, PAIR_OF_LOCKS)] + ([Begin(1, PAIR_OF_LOCKS)] + CrossingRun())
  }

  function SharedHall(): Hall {
    Two(TwoCpus(0), Task(PAIR_OF_LOCKS, 1, true), Task(PAIR_OF_LOCKS, 1, true))
  }

  function TwoCpus(free: nat): Table {
    map[TheCpu := Semaphore(2, free)]
  }

  lemma SharedTables()
    ensures TakeTheirFirst(PAIR_OF_LOCKS, PAIR_OF_LOCKS, TwoCpus(2), TwoCpus(1), TwoCpus(1), TwoCpus(0))
    ensures LookedUp(TwoCpus(0), Cpu(2)) == TwoCpus(0)
  {
  }

  lemma BothBegin(printable: char -> bool)
    ensures Enabled(EMPTY_HALL, Begin(0, PAIR_OF_LOCKS))
    ensures var one := Apply(EMPTY_HALL, Begin(0, PAIR_OF_LOCKS), printable);
      && Enabled(one, Begin(1, PAIR_OF_LOCKS))
      && Apply(one, Begin(1, PAIR_OF_LOCKS), printable) == Begun(PAIR_OF_LOCKS, PAIR_OF_LOCKS)
  {
    PairStaysAPair(Cpu(2), printable);
    hide SortByKey;
  }

  lemma OneEventFirst(h: Hall, e: Event, es: seq<Event>, printable: char -> bool)
    requires Enabled(h, e) && Legal(Apply(h, e, printable), es, printable)
    ensures Legal(h, [e] + es, printable)
    ensures Play(h, [e] + es, printable) == Play(Apply(h, e, printable), es, printable)
  {
    assert ([e] + es)[1..] == es;
    hide Enabled, Apply;
  }

  lemma SharedIsStuck()
    ensures SharedHall().tasks != map[] && AtRest(SharedHall())
  {
  }

  /** Each of them would end if it were alone; together they come to wait for each other. */
  lemma SharedRepeatsDeadlock(printable: char -> bool)
    ensures Legal(EMPTY_HALL, SharingRun(), printable)
    ensures Play(EMPTY_HALL, SharingRun(), printable) == SharedHall()
    ensures SharedHall().tasks != map[] && AtRest(SharedHall())
  {
    SharedIsStuck();
    SharedTables();
    hide AtRest, Legal, Play, Enabled, Apply, LookedUp, Taken, CrossingRun, TakeTheirFirst, TwoCpus;
    WorkersCross(PAIR_OF_LOCKS, PAIR_OF_LOCKS, TwoCpus(2), TwoCpus(1), TwoCpus(1), TwoCpus(0), printable);
    BothBegin(printable);
    var one := Apply(EMPTY_HALL, Begin(0, PAIR_OF_LOCKS), printable);
    OneEventFirst(one, Begin(1, PAIR_OF_LOCKS), CrossingRun(), printable);
    OneEventFirst(EMPTY_HALL, Begin(0, PAIR_OF_LOCKS), [Begin(1, PAIR_OF_LOCKS)] + CrossingRun(), printable);
  }

  lemma CrossedIsStuck()
    ensures CrossedHall().tasks != map[] && AtRest(CrossedHall())
  {
  }

  lemma CrossedFits()
    ensures var h := CrossedHall(); forall id :: id in h.tasks ==> TaskFits(h.tasks[id], h.table.Keys)
  {
  }

  lemma CrossedPermits()
    ensures forall r :: r in CrossedHall().table ==> Tally(CrossedHall().tasks, PermitsOn(r)) == 1
  {
    var h := CrossedHall();
    var a, b := h.tasks[0], h.tasks[1];
    OneLock(a);
    OneLock(b);
    hide Tally, Count, Holding, PermitsOn;
    forall r | r in h.table ensures Tally(h.tasks, PermitsOn(r)) == 1 {
      TwoTaskTally(0, a, 1, b, PermitsOn(r));
    }
  }

  lemma OneLock(k: Task)
    requires k.order != [] && k.got == 1
    ensures forall r :: PermitsOn(r)(k) == if ResourceOf(k.order[0]) == r then 1 else 0
  {
  }

  lemma TwoTaskTally(i: TaskId, a: Task, j: TaskId, b: Task, f: Task -> nat)
    requires i != j
    ensures Tally(map[i := a, j := b], f) == f(a) + f(b)
  {
    var m: map<TaskId, Task> := map[];
    TallyAdd(m, i, a, f);
    TallyAdd(m[i := a], j, b, f);
    assert m[i := a][j := b] == map[i := a, j := b];
  }
}
