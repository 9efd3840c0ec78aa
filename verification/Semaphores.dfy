/** The registry of semaphores as the daemon holds it: a table created lazily and updated in place. */
module Semaphores {
  import opened Wrappers
  import opened Stages
  import opened LockOrder
  import opened Locks

  /** How the wait for one lock ends; the scheduler's environment decides. */
  datatype Answer = Granted | TimedOut | Cancelled | BelowReserve

  /** `after` is `before` with exactly `permits` lent out, plus perhaps semaphores nobody has taken yet. */
  ghost predicate Lent(before: Table, after: Table, permits: seq<ResourceLock>) {
    && before.Keys <= after.Keys
    && (forall r :: r in before ==> after[r].cap == before[r].cap)
    && (forall r :: r in after && r in before ==> after[r].free + Count(permits, r) == before[r].free)
    && (forall r :: r in after && r !in before ==> after[r].free + Count(permits, r) == after[r].cap)
    && (forall l :: l in permits ==> ResourceOf(l) in after)
  }

  /** None of the first `n` waits ends without a permit. */
  predicate AllGranted(answers: seq<Answer>, n: nat) {
    forall j :: 0 <= j < n && j < |answers| ==> answers[j].Granted?
  }

  lemma OneMoreGranted(answers: seq<Answer>, n: nat)
    requires AllGranted(answers, n)
    ensures AnswerTo(answers, n).Granted? ==> AllGranted(answers, n + 1)
  {
  }

  lemma LookupLendsNothing(before: Table, after: Table, permits: seq<ResourceLock>, l: ResourceLock)
    requires Lent(before, after, permits)
    ensures Lent(before, LookedUp(after, l), permits)
  {
    hide FirstCap, Count;
    var r := ResourceOf(l);
    assert r !in after ==> Count(permits, r) == 0 by {
      NotLent(permits, r, after.Keys);
    }
  }

  lemma LookupFinds(t: Table, l: ResourceLock)
    ensures ResourceOf(l) in LookedUp(t, l)
  {
  }

  lemma NotLent(permits: seq<ResourceLock>, r: Resource, known: set<Resource>)
    requires forall l :: l in permits ==> ResourceOf(l) in known
    ensures r !in known ==> Count(permits, r) == 0
  {
  }

  lemma TakingLendsOne(before: Table, after: Table, permits: seq<ResourceLock>, l: ResourceLock)
    requires Lent(before, after, permits)
    requires ResourceOf(l) in after && after[ResourceOf(l)].free > 0
    ensures Lent(before, Taken(after, l), permits + [l])
  {
    CountOneMore(permits, l);
    hide ResourceOf, Count;
  }

  lemma NothingLent(t: Table)
    ensures Lent(t, t, [])
  {
  }

  lemma NothingGivenBack(t: Table)
    ensures GivenBack(t, []) == t
    ensures forall permits :: GivenBack(t, permits).Keys == t.Keys
  {
  }

  lemma CountOneMore(permits: seq<ResourceLock>, l: ResourceLock)
    ensures forall r :: Count(permits + [l], r) == Count(permits, r) + if ResourceOf(l) == r then 1 else 0
  {
    hide ResourceOf;
    assert (permits + [l])[..|permits|] == permits;
  }

  lemma GiveOneMore(t: Table, permits: seq<ResourceLock>, l: ResourceLock)
    requires ResourceOf(l) in t
    ensures var given := GivenBack(t, permits);
      GivenBack(t, permits + [l])
        == given[ResourceOf(l) := given[ResourceOf(l)].(free := given[ResourceOf(l)].free + 1)]
  {
    CountOneMore(permits, l);
    hide ResourceOf, Count;
  }

  lemma GivingBackUndoes(before: Table, after: Table, permits: seq<ResourceLock>)
    requires Lent(before, after, permits)
    ensures forall l :: l in permits ==> ResourceOf(l) in after
    ensures Lent(before, GivenBack(after, permits), [])
  {
  }

  /** A caller naming `l` first, or next, would find a permit. */
  predicate Room(t: Table, l: ResourceLock) {
    if ResourceOf(l) in t then t[ResourceOf(l)].free > 0 else FirstCap(l) > 0
  }

  /** Every semaphore of `after` was there before or is one of those lent from. */
  predicate OnlyFor(before: Table, after: Table, permits: seq<ResourceLock>) {
    forall r :: r in after ==> r in before || Count(permits, r) > 0
  }

  lemma OnlyForOneMore(before: Table, after: Table, permits: seq<ResourceLock>, l: ResourceLock)
    requires OnlyFor(before, after, permits)
    requires ResourceOf(l) in LookedUp(after, l) && LookedUp(after, l)[ResourceOf(l)].free > 0
    ensures OnlyFor(before, Taken(LookedUp(after, l), l), permits + [l])
  {
    hide ResourceOf, FirstCap;
    assert (permits + [l])[..|permits|] == permits;
  }

  /** A wait that finds no permit, on a resource not held yet, means there was none to begin with. */
  lemma NoRoomToBeginWith(start: Table, now: Table, held: seq<ResourceLock>, l: ResourceLock)
    requires Lent(start, now, held) && OnlyFor(start, now, held)
    requires Count(held, ResourceOf(l)) == 0
    requires ResourceOf(l) in LookedUp(now, l) && LookedUp(now, l)[ResourceOf(l)].free == 0
    ensures !Room(start, l)
  {
    hide ResourceOf, FirstCap, Count;
  }

  /** In key order a resource comes up once. */
  lemma NotHeldYet(order: seq<ResourceLock>, n: nat, required: seq<ResourceLock>, printable: char -> bool)
    requires DifferentResources(required) && order == SortByKey(required, printable) && n < |order|
    ensures Count(order[..n], ResourceOf(order[n])) == 0
    ensures order[n] in required
  {
    SortAscends(required, printable);
    hide SortByKey, Precedes, ResourceOf;
    IrreflexiveOrder(ResourceOf(order[n]), printable);
    assert order[n] in multiset(order);
  }

  /** Nothing was acquired because a wait ended early, or the list repeats a resource, or one had no permit free. */
  ghost predicate HasReason(start: Table, required: seq<ResourceLock>, answers: seq<Answer>) {
    || !AllGranted(answers, |required|)
    || !DifferentResources(required)
    || exists l :: l in required && !Room(start, l)
  }

  function AnswerTo(answers: seq<Answer>, i: nat): Answer {
    if i < |answers| then answers[i] else Granted
  }

  lemma RefusalHasReason(start: Table, now: Table, n: nat, required: seq<ResourceLock>, answers: seq<Answer>,
                         printable: char -> bool)
    requires var order := SortByKey(required, printable);
      && |order| == |required| && n < |order|
      && Lent(start, now, order[..n]) && OnlyFor(start, now, order[..n])
      && (AnswerTo(answers, n).Granted? ==>
            && ResourceOf(order[n]) in LookedUp(now, order[n])
            && LookedUp(now, order[n])[ResourceOf(order[n])].free == 0)
    ensures HasReason(start, required, answers)
  {
    var order := SortByKey(required, printable);
    if AllGranted(answers, |required|) && DifferentResources(required) {
      NotHeldYet(order, n, required, printable);
      hide Lent, OnlyFor, LookedUp, ResourceOf, SortByKey, DifferentResources, Room;
      NoRoomToBeginWith(start, now, order[..n], order[n]);
    }
  }

  function First(order: seq<ResourceLock>, n: nat): seq<ResourceLock>
    requires n <= |order|
  {
    order[..n]
  }

  /** The first n locks of `order` are lent and nothing else is; every wait so far brought its permit. */
  ghost predicate Underway(start: Table, now: Table, order: seq<ResourceLock>, n: nat, answers: seq<Answer>) {
    && n <= |order|
    && Lent(start, now, First(order, n)) && OnlyFor(start, now, First(order, n))
    && AllGranted(answers, n)
  }

  lemma OneMoreLock(start: Table, now: Table, order: seq<ResourceLock>, n: nat, answers: seq<Answer>)
    requires Underway(start, now, order, n, answers) && n < |order|
    requires AnswerTo(answers, n).Granted?
    requires ResourceOf(order[n]) in LookedUp(now, order[n])
    requires LookedUp(now, order[n])[ResourceOf(order[n])].free > 0
    ensures Underway(start, Taken(LookedUp(now, order[n]), order[n]), order, n + 1, answers)
    ensures First(order, n + 1) == First(order, n) + [order[n]]
  {
    hide Lent, OnlyFor, AllGranted, ResourceOf, LookedUp, Taken;
    assert order[..n + 1] == order[..n] + [order[n]];
    LookupLendsNothing(start, now, order[..n], order[n]);
    TakingLendsOne(start, LookedUp(now, order[n]), order[..n], order[n]);
    OnlyForOneMore(start, now, order[..n], order[n]);
    OneMoreGranted(answers, n);
  }

  /** Giving up at lock n: what was lent can be given back, and there was a reason. */
  lemma GivingUp(start: Table, before: Table, now: Table, n: nat, required: seq<ResourceLock>, answers: seq<Answer>,
                 printable: char -> bool)
    requires var order := SortByKey(required, printable);
      && |order| == |required| && n < |order|
      && Underway(start, before, order, n, answers)
      && (now == before || now == LookedUp(before, order[n]))
      && (AnswerTo(answers, n).Granted? ==>
            && ResourceOf(order[n]) in LookedUp(before, order[n])
            && LookedUp(before, order[n])[ResourceOf(order[n])].free == 0)
    ensures var held := First(SortByKey(required, printable), n);
      && (forall l :: l in held ==> ResourceOf(l) in now)
      && Lent(start, GivenBack(now, held), [])
    ensures HasReason(start, required, answers)
  {
    hide Lent, OnlyFor, AllGranted, ResourceOf, LookedUp, HasReason, GivenBack, SortByKey;
    var order := SortByKey(required, printable);
    RefusalHasReason(start, before, n, required, answers, printable);
    LookupLendsNothing(start, before, order[..n], order[n]);
    GivingBackUndoes(start, now, order[..n]);
  }

  lemma UnderwayToTheEnd(start: Table, now: Table, order: seq<ResourceLock>, answers: seq<Answer>)
    requires Underway(start, now, order, |order|, answers)
    ensures Lent(start, now, order) && AllGranted(answers, |order|) && First(order, |order|) == order
  {
    assert order[..|order|] == order;
  }

  lemma SortKeepsLength(required: seq<ResourceLock>, printable: char -> bool)
    ensures |SortByKey(required, printable)| == |required|
  {
    assert |multiset(SortByKey(required, printable))| == |multiset(required)|;
  }

  class ResourceRegistry {
    var table: Table

    constructor ()
      ensures table == map[]
    {
      table := map[];
    }

    /** The first caller to name a resource fixes its capacity. */
    method Lookup(lock: ResourceLock)
      modifies this
      ensures table == LookedUp(old(table), lock)
    {
      var r := ResourceOf(lock);
      if r !in table {
        var cap := match lock
          case Gpu => 1
          case Cpu(cap) => cap
          case Disk(cap) => cap
          case Api(_, cap) => cap
          case File(_) => 1;
        table := table[r := Semaphore(cap, cap)];
      }
    }

    /** Dropping the permits of a stage, one after the other. */
    method DropPermits(permits: seq<ResourceLock>)
      requires forall l :: l in permits ==> ResourceOf(l) in table
      modifies this
      ensures table == GivenBack(old(table), permits)
    {
      hide GivenBack, ResourceOf;
      ghost var start := table;
      NothingGivenBack(start);
      var i := 0;
      while i < |permits|
        invariant 0 <= i <= |permits|
        invariant table == GivenBack(start, permits[..i])
      {
        assert permits[..i + 1] == permits[..i] + [permits[i]];
        GiveOneMore(start, permits[..i], permits[i]);
        var r := ResourceOf(permits[i]);
        table := table[r := table[r].(free := table[r].free + 1)];
        i := i + 1;
      }
      assert permits[..i] == permits;
    }

    /** Wait for one permit.  The reserve is looked at before the semaphore is even looked up. */
    method Acquire(lock: ResourceLock, answer: Answer) returns (arrived: bool)
      modifies this
      ensures arrived ==> answer.Granted?
      ensures arrived ==> ResourceOf(lock) in LookedUp(old(table), lock)
      ensures arrived ==> LookedUp(old(table), lock)[ResourceOf(lock)].free > 0
      ensures arrived ==> table == Taken(LookedUp(old(table), lock), lock)
      ensures !arrived ==>
        table == if answer.Cancelled? || (answer.BelowReserve? && lock.Disk?) then old(table)
                 else LookedUp(old(table), lock)
      ensures answer.Granted? && !arrived ==>
        ResourceOf(lock) in LookedUp(old(table), lock) && LookedUp(old(table), lock)[ResourceOf(lock)].free == 0
    {
      if answer.Cancelled? || (answer.BelowReserve? && lock.Disk?) {
        return false;
      }
      LookupFinds(table, lock);
      hide LookedUp, ResourceOf;
      Lookup(lock);
      var r := ResourceOf(lock);
      arrived := answer.Granted? && table[r].free > 0;
      if arrived {
        table := table[r := table[r].(free := table[r].free - 1)];
      }
    }

    /**
      Take every lock a stage requires, in key order.  `answers` says how each wait ends; a
      permit can only arrive while one is free.  Either all of them are lent to the caller,
      in key order, or none is.
     */
    method AcquireStageLocks(required: seq<ResourceLock>, answers: seq<Answer>, printable: char -> bool)
      returns (permits: Option<seq<ResourceLock>>)
      modifies this
      ensures permits.Some? ==> permits.value == SortByKey(required, printable)
      ensures Lent(old(table), table, if permits.Some? then permits.value else [])
      ensures permits.Some? ==> AllGranted(answers, |required|)
      ensures permits.None? ==> HasReason(old(table), required, answers)
    {
      var order := SortByKey(required, printable);
      SortKeepsLength(required, printable);
      ghost var start := table;
      NothingLent(table);
      assert Underway(start, table, order, 0, answers) && First(order, 0) == [];
      hide *;
      var held, n := [], 0;
      while n < |order|
        invariant n <= |order| && held == First(order, n)
        invariant Underway(start, table, order, n, answers)
      {
        var lock := order[n];
        ghost var before := table;
        var arrived := Acquire(lock, AnswerTo(answers, n));
        if !arrived {
          GivingUp(start, before, table, n, required, answers, printable);
          DropPermits(held);
          return None;
        }
        OneMoreLock(start, before, order, n, answers);
        held := held + [lock];
        n := n + 1;
      }
      UnderwayToTheEnd(start, table, order, answers);
      return Some(held);
    }
  }
}
