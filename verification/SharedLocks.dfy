/**
  How many workers share a resource: as many as the first caller declared, at once, and never more.
 */
module SharedLocks {
  import opened Stages
  import opened LockOrder
  import opened Locks

  /** How many permits the lock asks its semaphore to be made with. */
  predicate Declares(l: ResourceLock, n: nat) {
    || l == Cpu(n) || l == Disk(n) || (l.Api? && l == Api(l.name, n))
    || (n == 1 && (l.Gpu? || l.File?))
  }

  /** A semaphore is made with the number its first caller declares, whatever later callers declare. */
  lemma FirstCallerDecides(t: Table, l: ResourceLock, n: nat)
    requires Declares(l, n)
    ensures ResourceOf(l) !in t ==> LookedUp(t, l) == t[ResourceOf(l) := Semaphore(n, n)]
    ensures ResourceOf(l) in t ==> LookedUp(t, l) == t
  {
  }

  // ------------------------------------------------------------- all at once

  /** Worker i asks for the i-th of the locks, and these are all on one resource. */
  predicate OneResource(locks: seq<ResourceLock>, r: Resource) {
    forall i :: 0 <= i < |locks| ==> ResourceOf(locks[i]) == r
  }

  function Served(locks: seq<ResourceLock>, r: Resource, n: nat, k: nat): Hall
    requires k <= |locks| && k <= n
  {
    Hall(if k == 0 then map[] else map[r := Semaphore(n, n - k)],
         map i: nat | i < k :: Task([locks[i]], 1, false))
  }

  function Turns(locks: seq<ResourceLock>, k: nat): (es: seq<Event>)
    requires k <= |locks|
    ensures |es| == 3 * k
  {
    if k == 0 then [] else Turns(locks, k - 1) + [Begin(k - 1, [locks[k - 1]])] + [Ask(k - 1)] + [Grant(k - 1)]
  }

  lemma OneLockSorted(l: ResourceLock, printable: char -> bool)
    ensures SortByKey([l], printable) == [l]
  {
    assert [l][..0] == [];
  }

  lemma WorkerBegins(h: Hall, id: TaskId, l: ResourceLock, printable: char -> bool)
    requires id !in h.tasks
    ensures Enabled(h, Begin(id, [l]))
    ensures Apply(h, Begin(id, [l]), printable) == Hall(h.table, h.tasks[id := Task([l], 0, false)])
  {
    OneLockSorted(l, printable);
    hide SortByKey;
  }

  lemma WorkerAsks(table: Table, tasks: map<TaskId, Task>, id: TaskId, l: ResourceLock, printable: char -> bool)
    ensures var h := Hall(table, tasks[id := Task([l], 0, false)]);
      && Enabled(h, Ask(id))
      && Apply(h, Ask(id), printable) == Hall(LookedUp(table, l), tasks[id := Task([l], 0, true)])
  {
    hide LookedUp;
  }

  lemma WorkerIsServed(table: Table, tasks: map<TaskId, Task>, id: TaskId, l: ResourceLock, printable: char -> bool)
    requires ResourceOf(l) in table && table[ResourceOf(l)].free > 0
    ensures var h := Hall(table, tasks[id := Task([l], 0, true)]);
      && Enabled(h, Grant(id))
      && Apply(h, Grant(id), printable) == Hall(Taken(table, l), tasks[id := Task([l], 1, false)])
  {
    hide Taken;
  }

  lemma OneMoreServed(locks: seq<ResourceLock>, r: Resource, n: nat, k: nat)
    requires k < |locks| && k < n && OneResource(locks, r) && Declares(locks[0], n)
    ensures var (before, l) := (Served(locks, r, n, k), locks[k]);
      && k !in before.tasks
      && r in LookedUp(before.table, l) && LookedUp(before.table, l)[r].free > 0
      && ResourceOf(l) == r
      && Served(locks, r, n, k + 1)
           == Hall(Taken(LookedUp(before.table, l), l), before.tasks[k := Task([l], 1, false)])
  {
    FirstCallerDecides(Served(locks, r, n, k).table, locks[k], if k == 0 then n else FirstCap(locks[k]));
    hide LookedUp;
  }

  lemma NextWorkerIsServed(locks: seq<ResourceLock>, r: Resource, n: nat, k: nat, es: seq<Event>,
                           printable: char -> bool)
    requires k < |locks| && k < n && OneResource(locks, r) && Declares(locks[0], n)
    requires Legal(EMPTY_HALL, es, printable) && Play(EMPTY_HALL, es, printable) == Served(locks, r, n, k)
    ensures var es' := es + [Begin(k, [locks[k]])] + [Ask(k)] + [Grant(k)];
      Legal(EMPTY_HALL, es', printable) && Play(EMPTY_HALL, es', printable) == Served(locks, r, n, k + 1)
  {
    hide *;
    var (h, l) := (Served(locks, r, n, k), locks[k]);
    OneMoreServed(locks, r, n, k);
    WorkerBegins(h, k, l, printable);
    OneMoreEvent(EMPTY_HALL, es, Begin(k, [l]), printable);
    WorkerAsks(h.table, h.tasks, k, l, printable);
    OneMoreEvent(EMPTY_HALL, es + [Begin(k, [l])], Ask(k), printable);
    WorkerIsServed(LookedUp(h.table, l), h.tasks, k, l, printable);
    OneMoreEvent(EMPTY_HALL, es + [Begin(k, [l])] + [Ask(k)], Grant(k), printable);
  }

  /**
    As many workers as the first lock declares hold the resource together, whatever the locks of
    the others declare: a shared resource is really shared.
   */
  lemma {:induction false} SharersHoldTogether(locks: seq<ResourceLock>, r: Resource, n: nat, k: nat,
                                               printable: char -> bool)
    requires k <= |locks| && k <= n && OneResource(locks, r) && (locks != [] ==> Declares(locks[0], n))
    ensures Legal(EMPTY_HALL, Turns(locks, k), printable)
    ensures var h := Play(EMPTY_HALL, Turns(locks, k), printable);
      && (k > 0 ==> h.table == map[r := Semaphore(n, n - k)])
      && |h.tasks| == k
      && forall i: nat :: i < k ==> i in h.tasks && h.tasks[i] == Task([locks[i]], 1, false)
  {
    SharersAreServed(locks, r, n, k, printable);
    hide Legal, Play, Turns;
    ServedAreMany(locks, r, n, k);
  }

  lemma {:induction false} ServedAreMany(locks: seq<ResourceLock>, r: Resource, n: nat, k: nat)
    requires k <= |locks| && k <= n
    ensures |Served(locks, r, n, k).tasks| == k
  {
    if k > 0 {
      ServedAreMany(locks, r, n, k - 1);
      assert Served(locks, r, n, k).tasks == Served(locks, r, n, k - 1).tasks[k - 1 := Task([locks[k - 1]], 1, false)];
    }
  }

  lemma {:induction false} SharersAreServed(locks: seq<ResourceLock>, r: Resource, n: nat, k: nat,
                                            printable: char -> bool)
    requires k <= |locks| && k <= n && OneResource(locks, r) && (locks != [] ==> Declares(locks[0], n))
    ensures Legal(EMPTY_HALL, Turns(locks, k), printable)
    ensures Play(EMPTY_HALL, Turns(locks, k), printable) == Served(locks, r, n, k)
  {
    hide Legal, Play, Declares, OneResource;
    if k == 0 {
      NobodyYet(printable);
      assert Served(locks, r, n, 0) == EMPTY_HALL;
    } else {
      hide Served;
      SharersAreServed(locks, r, n, k - 1, printable);
      NextWorkerIsServed(locks, r, n, k - 1, Turns(locks, k - 1), printable);
    }
  }

  lemma NobodyYet(printable: char -> bool)
    ensures Legal(EMPTY_HALL, [], printable) && Play(EMPTY_HALL, [], printable) == EMPTY_HALL
  {
  }

  // ------------------------------------------------------------- and never more

  lemma {:induction false} TallyAtLeast(m: map<TaskId, Task>, ids: set<TaskId>, f: Task -> nat)
    requires forall id :: id in ids ==> id in m && f(m[id]) > 0
    ensures Tally(m, f) >= |ids|
    decreases |ids|
  {
    if ids != {} {
      var id :| id in ids;
      TallyAtLeast(m - {id}, ids - {id}, f);
      TallyPick(m, id, f);
    }
  }

  function Holders(h: Hall, r: Resource): set<TaskId> {
    set id | id in h.tasks && Holds(h.tasks[id], r)
  }

  lemma HoldersFit(h: Hall, r: Resource)
    requires Balanced(h)
    ensures r in h.table ==> |Holders(h, r)| <= h.table[r].cap
    ensures r !in h.table ==> Holders(h, r) == {}
  {
    forall id | id in Holders(h, r) ensures PermitsOn(r)(h.tasks[id]) > 0 {
    }
    hide Count, Holds;
    TallyAtLeast(h.tasks, Holders(h, r), PermitsOn(r));
    if r !in h.table {
      NoPermitsOutsideTable(h, r);
    }
  }

  lemma PlayFromSecond(h: Hall, es: seq<Event>, k: nat, printable: char -> bool)
    requires es != [] && Legal(h, es, printable) && k < |es|
    requires Legal(Apply(h, es[0], printable), es[1..][..k], printable)
    ensures Legal(h, es[..k + 1], printable)
    ensures Play(h, es[..k + 1], printable) == Play(Apply(h, es[0], printable), es[1..][..k], printable)
  {
    assert es[..k + 1][1..] == es[1..][..k];
    hide Enabled, Apply;
  }

  /** Event k is the first to ask for the resource, with a lock that declares n. */
  ghost predicate FirstAsks(h: Hall, es: seq<Event>, k: nat, r: Resource, n: nat, printable: char -> bool) {
    && k < |es| && Legal(h, es[..k], printable)
    && var now := Play(h, es[..k], printable);
    && r !in now.table && es[k].Ask? && es[k].task in now.tasks
    && var w := now.tasks[es[k].task];
    && w.got < |w.order| && ResourceOf(w.order[w.got]) == r && Declares(w.order[w.got], n)
  }

  lemma EventAddsAsked(h: Hall, e: Event, r: Resource, printable: char -> bool) returns (n: nat)
    requires Enabled(h, e) && r !in h.table && r in Apply(h, e, printable).table
    ensures FirstAsks(h, [e], 0, r, n, printable) && Apply(h, e, printable).table[r].cap == n
  {
    assert e.Ask?;
    var w := h.tasks[e.task];
    n := FirstCap(w.order[w.got]);
    assert [e][..0] == [];
  }

  /** The capacity of every semaphore a run makes is the number in the first lock that asked for it. */
  lemma {:induction false} FirstAskDecides(h: Hall, es: seq<Event>, r: Resource, printable: char -> bool)
    returns (k: nat, n: nat)
    requires Legal(h, es, printable) && r !in h.table && r in Play(h, es, printable).table && Balanced(h)
    ensures FirstAsks(h, es, k, r, n, printable) && Play(h, es, printable).table[r].cap == n
    decreases |es|
  {
    var t := Apply(h, es[0], printable);
    hide Enabled, Apply, Balanced, FirstAsks;
    StepKeepsBalanced(h, es[0], printable);
    if r in t.table {
      n := EventAddsAsked(h, es[0], r, printable);
      k := 0;
      FirstOfMany(h, es, r, n, printable);
      PermitsAddUp(t, es[1..], printable);
    } else {
      k, n := FirstAskDecides(t, es[1..], r, printable);
      LaterOfMany(h, es, k, r, n, printable);
      k := k + 1;
    }
  }

  lemma FirstOfMany(h: Hall, es: seq<Event>, r: Resource, n: nat, printable: char -> bool)
    requires es != [] && FirstAsks(h, [es[0]], 0, r, n, printable)
    ensures FirstAsks(h, es, 0, r, n, printable)
  {
    assert es[..0] == [es[0]][..0];
  }

  lemma LaterOfMany(h: Hall, es: seq<Event>, k: nat, r: Resource, n: nat, printable: char -> bool)
    requires es != [] && Legal(h, es, printable)
    requires FirstAsks(Apply(h, es[0], printable), es[1..], k, r, n, printable)
    ensures FirstAsks(h, es, k + 1, r, n, printable)
  {
    hide Enabled, Apply, Legal, Play;
    PlayFromSecond(h, es, k, printable);
  }

  lemma NobodyIsBalanced()
    ensures Balanced(EMPTY_HALL)
  {
  }

  /** Never more workers hold a resource than the lock that first asked for it declares. */
  lemma NeverMoreThanDeclared(es: seq<Event>, r: Resource, printable: char -> bool)
    requires Legal(EMPTY_HALL, es, printable)
    ensures var holders := Holders(Play(EMPTY_HALL, es, printable), r);
      holders == {} || exists k, n :: FirstAsks(EMPTY_HALL, es, k, r, n, printable) && |holders| <= n
  {
    hide FirstAsks, Holders, Legal, Play, Balanced;
    NobodyIsBalanced();
    PermitsAddUp(EMPTY_HALL, es, printable);
    HoldersFit(Play(EMPTY_HALL, es, printable), r);
    if r in Play(EMPTY_HALL, es, printable).table {
      var k, n := FirstAskDecides(EMPTY_HALL, es, r, printable);
    }
  }
}
