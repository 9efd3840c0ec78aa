/**
  A worker with no other beside it, whatever workers came before: when can the list of its
  own locks make it wait for ever?
 */
module LoneWorker {
  import opened Stages
  import opened LockOrder
  import opened Locks

  /** The place of the first lock on a resource; |order| if there is none. */
  function FirstOn(order: seq<ResourceLock>, r: Resource): (i: nat)
    ensures i <= |order| && (i < |order| ==> ResourceOf(order[i]) == r)
    ensures forall j :: 0 <= j < i ==> ResourceOf(order[j]) != r
  {
    if order == [] || ResourceOf(order[0]) == r then 0 else 1 + FirstOn(order[1..], r)
  }

  /** The capacity of the resource: fixed by an earlier worker, or else by the first lock on it. */
  function CapOf(t: Table, order: seq<ResourceLock>, r: Resource): nat {
    if r in t then t[r].cap
    else
      var i := FirstOn(order, r);
      if i < |order| then FirstCap(order[i]) else 0
  }

  /** Nobody holds a permit. */
  predicate AllFree(t: Table) {
    forall r :: r in t ==> t[r].free == t[r].cap
  }

  /** Lock i asks for one permit more than its resource has. */
  predicate Overdraws(t: Table, order: seq<ResourceLock>, i: nat)
    requires i < |order|
  {
    Count(order[..i + 1], ResourceOf(order[i])) > CapOf(t, order, ResourceOf(order[i]))
  }

  function Left(cap: nat, taken: nat): nat {
    if taken <= cap then cap - taken else 0
  }

  /** The resources that have a semaphore once n locks have been looked up. */
  function Known(t: Table, order: seq<ResourceLock>, n: nat): set<Resource>
    requires n <= |order|
  {
    t.Keys + set l | l in order[..n] :: ResourceOf(l)
  }

  /** The semaphore of a resource once the first `got` locks are granted. */
  function Seat(t: Table, order: seq<ResourceLock>, r: Resource, got: nat): Semaphore
    requires got <= |order|
  {
    Semaphore(CapOf(t, order, r), Left(CapOf(t, order, r), Count(order[..got], r)))
  }

  /** The semaphores once `asked` locks have been looked up and `got` of them granted. */
  function LoneTable(t: Table, order: seq<ResourceLock>, asked: nat, got: nat): Table
    requires got <= asked <= |order|
  {
    map r | r in Known(t, order, asked) :: Seat(t, order, r, got)
  }

  predicate Fits(order: seq<ResourceLock>, got: nat, waiting: bool) {
    got <= |order| && (waiting ==> got < |order|)
  }

  function Lone(t: Table, id: TaskId, order: seq<ResourceLock>, got: nat, waiting: bool): Hall
    requires Fits(order, got, waiting)
  {
    Hall(LoneTable(t, order, if waiting then got + 1 else got, got), map[id := Task(order, got, waiting)])
  }

  lemma KnownOneMore(t: Table, order: seq<ResourceLock>, n: nat)
    requires n < |order|
    ensures Known(t, order, n + 1) == Known(t, order, n) + {ResourceOf(order[n])}
  {
    assert order[..n + 1] == order[..n] + [order[n]];
  }

  lemma NewIsFirst(t: Table, order: seq<ResourceLock>, n: nat)
    requires n < |order| && ResourceOf(order[n]) !in Known(t, order, n)
    ensures Seat(t, order, ResourceOf(order[n]), n) == Semaphore(FirstCap(order[n]), FirstCap(order[n]))
  {
    var r := ResourceOf(order[n]);
    assert forall i :: 0 <= i < n ==> order[i] in order[..n];
    assert FirstOn(order, r) == n;
    assert Count(order[..n], r) == 0;
  }

  lemma LoneLooksUp(t: Table, order: seq<ResourceLock>, n: nat)
    requires n < |order|
    ensures LookedUp(LoneTable(t, order, n, n), order[n]) == LoneTable(t, order, n + 1, n)
  {
    KnownOneMore(t, order, n);
    if ResourceOf(order[n]) !in Known(t, order, n) {
      NewIsFirst(t, order, n);
    }
    hide Known, Seat;
  }

  lemma SeatTaken(t: Table, order: seq<ResourceLock>, n: nat, r: Resource)
    requires n < |order|
    ensures r != ResourceOf(order[n]) ==> Seat(t, order, r, n + 1) == Seat(t, order, r, n)
    ensures r == ResourceOf(order[n]) ==> (Seat(t, order, r, n).free > 0 <==> !Overdraws(t, order, n))
    ensures r == ResourceOf(order[n]) && !Overdraws(t, order, n) ==>
      Seat(t, order, r, n + 1) == Seat(t, order, r, n).(free := Seat(t, order, r, n).free - 1)
  {
    assert order[..n + 1][..n] == order[..n];
    hide CapOf;
  }

  lemma TakenIs(a: Table, b: Table, l: ResourceLock)
    requires ResourceOf(l) in a && a[ResourceOf(l)].free > 0 && b.Keys == a.Keys
    requires forall r :: r in a ==>
      b[r] == if r == ResourceOf(l) then a[r].(free := a[r].free - 1) else a[r]
    ensures Taken(a, l) == b
  {
  }

  lemma LoneTakes(t: Table, order: seq<ResourceLock>, n: nat)
    requires n < |order|
    ensures var before := LoneTable(t, order, n + 1, n);
      && ResourceOf(order[n]) in before
      && (before[ResourceOf(order[n])].free > 0 <==> !Overdraws(t, order, n))
      && (!Overdraws(t, order, n) ==> Taken(before, order[n]) == LoneTable(t, order, n + 1, n + 1))
  {
    KnownOneMore(t, order, n);
    hide Seat, Overdraws, Known, ResourceOf, Taken;
    var (a, b) := (LoneTable(t, order, n + 1, n), LoneTable(t, order, n + 1, n + 1));
    SeatTaken(t, order, n, ResourceOf(order[n]));
    if !Overdraws(t, order, n) {
      forall r | r in a
        ensures b[r] == if r == ResourceOf(order[n]) then a[r].(free := a[r].free - 1) else a[r]
      {
        SeatTaken(t, order, n, r);
      }
      TakenIs(a, b, order[n]);
    }
  }

  function One(table: Table, id: TaskId, order: seq<ResourceLock>, got: nat, waiting: bool): Hall {
    Hall(table, map[id := Task(order, got, waiting)])
  }

  // The only progress step of a worker on its own is to ask, to be granted a permit if there is one, or to finish.

  lemma OneCanAsk(table: Table, id: TaskId, order: seq<ResourceLock>, got: nat, e: Event, printable: char -> bool)
    requires got < |order| && e.IsProgress() && Enabled(One(table, id, order, got, false), e)
    ensures Apply(One(table, id, order, got, false), e, printable)
      == One(LookedUp(table, order[got]), id, order, got, true)
  {
    hide LookedUp;
  }

  lemma OneCanTake(table: Table, id: TaskId, order: seq<ResourceLock>, got: nat, e: Event, printable: char -> bool)
    requires got < |order| && e.IsProgress() && Enabled(One(table, id, order, got, true), e)
    ensures ResourceOf(order[got]) in table && table[ResourceOf(order[got])].free > 0
    ensures Apply(One(table, id, order, got, true), e, printable)
      == One(Taken(table, order[got]), id, order, got + 1, false)
  {
    hide Taken;
  }

  lemma OneCanFinish(table: Table, id: TaskId, order: seq<ResourceLock>, e: Event, printable: char -> bool)
    requires e.IsProgress() && Enabled(One(table, id, order, |order|, false), e)
    ensures Apply(One(table, id, order, |order|, false), e, printable).tasks == map[]
  {
    hide GivenBack;
  }

  lemma LoneAsks(t: Table, id: TaskId, order: seq<ResourceLock>, got: nat, e: Event, printable: char -> bool)
    requires got < |order| && e.IsProgress() && Enabled(Lone(t, id, order, got, false), e)
    ensures Apply(Lone(t, id, order, got, false), e, printable) == Lone(t, id, order, got, true)
  {
    LoneLooksUp(t, order, got);
    hide LoneTable, LookedUp, Enabled, Apply;
    OneCanAsk(LoneTable(t, order, got, got), id, order, got, e, printable);
  }

  lemma LoneIsGranted(t: Table, id: TaskId, order: seq<ResourceLock>, got: nat, e: Event, printable: char -> bool)
    requires got < |order| && e.IsProgress() && Enabled(Lone(t, id, order, got, true), e)
    ensures !Overdraws(t, order, got)
    ensures Apply(Lone(t, id, order, got, true), e, printable) == Lone(t, id, order, got + 1, false)
  {
    LoneTakes(t, order, got);
    hide LoneTable, Taken, Overdraws, Enabled, Apply;
    OneCanTake(LoneTable(t, order, got + 1, got), id, order, got, e, printable);
  }

  lemma LoneFinishes(t: Table, id: TaskId, order: seq<ResourceLock>, e: Event, printable: char -> bool)
    requires e.IsProgress() && Enabled(Lone(t, id, order, |order|, false), e)
    ensures Apply(Lone(t, id, order, |order|, false), e, printable).tasks == map[]
  {
    hide LoneTable, Enabled, Apply;
    OneCanFinish(LoneTable(t, order, |order|, |order|), id, order, e, printable);
  }

  lemma NothingLeftToDo(h: Hall, es: seq<Event>, printable: char -> bool)
    requires h.tasks == map[] && Legal(h, es, printable) && (es != [] ==> es[0].IsProgress())
    ensures es == []
  {
  }

  lemma LoneRests(t: Table, id: TaskId, order: seq<ResourceLock>, got: nat, waiting: bool)
    requires Fits(order, got, waiting)
    ensures Lone(t, id, order, got, waiting).tasks != map[]
    ensures AtRest(Lone(t, id, order, got, waiting)) <==> waiting && Overdraws(t, order, got)
  {
    if waiting {
      LoneTakes(t, order, got);
    }
    hide LoneTable, LookedUp, Taken, Overdraws, GivenBack;
    var h := Lone(t, id, order, got, waiting);
    assert id in h.tasks;
    assert AtRest(h) <==> !CanMove(h, id);
  }

  predicate NeverOverdraws(t: Table, order: seq<ResourceLock>, from: nat) {
    forall i :: from <= i < |order| ==> !Overdraws(t, order, i)
  }

  lemma {:induction false} LoneWorkerEnds(t: Table, id: TaskId, order: seq<ResourceLock>, got: nat, waiting: bool,
                                          es: seq<Event>, printable: char -> bool)
    requires Fits(order, got, waiting)
    requires Legal(Lone(t, id, order, got, waiting), es, printable)
    requires forall i :: 0 <= i < |es| ==> es[i].IsProgress()
    requires AtRest(Play(Lone(t, id, order, got, waiting), es, printable))
    ensures Play(Lone(t, id, order, got, waiting), es, printable).tasks == map[] <==> NeverOverdraws(t, order, got)
    decreases |es|
  {
    hide Lone, Enabled, Apply, AtRest, Overdraws;
    var h := Lone(t, id, order, got, waiting);
    if es == [] {
      LoneRests(t, id, order, got, waiting);
    } else if waiting {
      LoneIsGranted(t, id, order, got, es[0], printable);
      LoneWorkerEnds(t, id, order, got + 1, false, es[1..], printable);
    } else if got < |order| {
      LoneAsks(t, id, order, got, es[0], printable);
      LoneWorkerEnds(t, id, order, got, true, es[1..], printable);
    } else {
      LoneFinishes(t, id, order, es[0], printable);
      NothingLeftToDo(Apply(h, es[0], printable), es[1..], printable);
    }
  }

  lemma LoneBegins(t: Table, id: TaskId, locks: seq<ResourceLock>, printable: char -> bool)
    requires AllFree(t)
    ensures Enabled(Hall(t, map[]), Begin(id, locks))
    ensures Apply(Hall(t, map[]), Begin(id, locks), printable) == Lone(t, id, SortByKey(locks, printable), 0, false)
  {
    var order := SortByKey(locks, printable);
    hide SortByKey, FirstOn;
    forall r | r in t ensures Seat(t, order, r, 0) == t[r] {
    }
    assert LoneTable(t, order, 0, 0) == t;
  }

  lemma EmptyHallIsFree(h: Hall)
    requires Balanced(h) && h.tasks == map[]
    ensures AllFree(h.table)
  {
  }

  /**
    A worker that begins when no other is left ends, whatever steps it takes, exactly when no resource of its list
    is named more often than its capacity, fixed by an earlier worker or by the list's first lock on it; otherwise
    every schedule leaves it waiting for itself.
   */
  lemma LoneWorkerFinishesIff(h: Hall, id: TaskId, locks: seq<ResourceLock>, es: seq<Event>, printable: char -> bool)
    requires Balanced(h) && h.tasks == map[]
    requires var begun := Apply(h, Begin(id, locks), printable);
      && Legal(begun, es, printable)
      && (forall i :: 0 <= i < |es| ==> es[i].IsProgress())
      && AtRest(Play(begun, es, printable))
    ensures var (end, order) := (Play(Apply(h, Begin(id, locks), printable), es, printable),
                                 SortByKey(locks, printable));
      end.tasks == map[] <==> forall r :: Count(order, r) <= CapOf(h.table, order, r)
  {
    EmptyHallIsFree(h);
    var (t, order) := (h.table, SortByKey(locks, printable));
    assert h == Hall(t, map[]);
    LoneBegins(t, id, locks, printable);
    hide AtRest, Legal, Play, Apply, SortByKey, Lone, Balanced;
    LoneWorkerEnds(t, id, order, 0, false, es, printable);
    NeverOverdrawsIff(t, order);
  }

  lemma {:induction false} CountGrows(order: seq<ResourceLock>, i: nat, r: Resource)
    requires i <= |order|
    ensures Count(order[..i], r) <= Count(order, r)
    decreases |order|
  {
    if i < |order| {
      var n := |order| - 1;
      assert order[..n][..i] == order[..i];
      CountGrows(order[..n], i, r);
    } else {
      assert order[..i] == order;
    }
  }

  /** The last lock on a resource counts them all. */
  lemma {:induction false} LastOn(order: seq<ResourceLock>, r: Resource) returns (i: nat)
    requires Count(order, r) > 0
    ensures i < |order| && ResourceOf(order[i]) == r && Count(order[..i + 1], r) == Count(order, r)
  {
    var n := |order| - 1;
    if ResourceOf(order[n]) == r {
      i := n;
      assert order[..n + 1] == order;
    } else {
      i := LastOn(order[..n], r);
      assert order[..n][..i + 1] == order[..i + 1];
    }
  }

  lemma NeverOverdrawsIff(t: Table, order: seq<ResourceLock>)
    ensures NeverOverdraws(t, order, 0) <==> forall r :: Count(order, r) <= CapOf(t, order, r)
  {
    hide Count, CapOf;
    if NeverOverdraws(t, order, 0) {
      forall r: Resource ensures Count(order, r) <= CapOf(t, order, r) {
        if Count(order, r) > 0 {
          var i := LastOn(order, r);
          assert !Overdraws(t, order, i);
        }
      }
    } else {
      var i :| 0 <= i < |order| && Overdraws(t, order, i);
      CountGrows(order, i + 1, ResourceOf(order[i]));
    }
  }
}
