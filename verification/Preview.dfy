/** The bounded cache of decoded preview frames: a map for lookup and a queue for eviction order. */
module Preview {
  import opened Wrappers
  import opened Sequences

  type Key = string
  type Path = string

  datatype Cache = Cache(capacity: nat, entries: map<Key, Path>, order: seq<Key>)

  function NewCache(capacity: nat): Cache {
    Cache(if capacity == 0 then 1 else capacity, map[], [])
  }

  /** The queue lists the held keys, each once, and there are never too many. */
  ghost predicate Valid(c: Cache) {
    && c.capacity >= 1
    && Distinct(c.order)
    && (forall k :: k in c.order <==> k in c.entries)
    && |c.order| <= c.capacity
  }

  function ToBack(order: seq<Key>, key: Key): seq<Key> {
    if Position(order, key) < |order| then Removed(order, key) + [key] else order
  }

  function Got(c: Cache, key: Key): Cache {
    if key in c.entries then c.(order := ToBack(c.order, key)) else c
  }

  function Forgotten(c: Cache, key: Key): Cache {
    Cache(c.capacity, c.entries - {key}, Removed(c.order, key))
  }

  /** Drop from the front while there are too many entries. */
  function Trimmed(c: Cache): Cache
    decreases |c.order|
  {
    if |c.entries| > c.capacity && c.order != []
    then Trimmed(Cache(c.capacity, c.entries - {c.order[0]}, c.order[1..]))
    else c
  }

  function Evicted(c: Cache): seq<Path>
    decreases |c.order|
  {
    if |c.entries| > c.capacity && c.order != [] then
      (if c.order[0] in c.entries then [c.entries[c.order[0]]] else [])
      + Evicted(Cache(c.capacity, c.entries - {c.order[0]}, c.order[1..]))
    else []
  }

  lemma TrimStep(c: Cache)
    requires |c.entries| > c.capacity && c.order != []
    ensures var t := Cache(c.capacity, c.entries - {c.order[0]}, c.order[1..]);
      && Trimmed(c) == Trimmed(t)
      && Evicted(c) == (if c.order[0] in c.entries then [c.entries[c.order[0]]] else []) + Evicted(t)
  {
  }

  lemma NothingToTrim(c: Cache)
    requires |c.entries| <= c.capacity || c.order == []
    ensures Trimmed(c) == c && Evicted(c) == []
  {
  }

  function Grown(c: Cache, key: Key, path: Path): Cache {
    Cache(c.capacity, c.entries[key := path], c.order + [key])
  }

  function Inserted(c: Cache, key: Key, path: Path): Cache {
    if key in c.entries then Cache(c.capacity, c.entries[key := path], ToBack(c.order, key))
    else Trimmed(Grown(c, key, path))
  }

  function Cleared(c: Cache): Cache {
    Cache(c.capacity, map[], [])
  }

  // Every operation keeps the cache valid.

  lemma ToBackKeepsKeys(order: seq<Key>, key: Key)
    requires Distinct(order)
    ensures Distinct(ToBack(order, key))
    ensures forall k :: k in ToBack(order, key) <==> k in order
    ensures |ToBack(order, key)| == |order|
  {
    RemovedKeepsRest(order, key);
    hide Removed;
    if Position(order, key) < |order| {
      AppendedIsDistinct(Removed(order, key), key);
    }
  }

  lemma EntriesMatchOrder(c: Cache)
    requires Distinct(c.order) && forall k :: k in c.order <==> k in c.entries
    ensures |c.entries| == |c.order|
  {
    DistinctCardinality(c.order);
    assert SeqSet(c.order) == c.entries.Keys;
  }

  /** Inserting evicts at most one frame: the front of the queue, and only when the cache was full. */
  lemma InsertingANewKey(c: Cache, key: Key, path: Path)
    requires Valid(c) && key !in c.entries
    ensures Valid(Inserted(c, key, path))
    ensures |c.order| < c.capacity ==>
      Inserted(c, key, path) == Grown(c, key, path) && Evicted(Grown(c, key, path)) == []
    ensures |c.order| == c.capacity ==>
      && Inserted(c, key, path)
        == Cache(c.capacity, c.entries[key := path] - {c.order[0]}, c.order[1..] + [key])
      && Evicted(Grown(c, key, path)) == [c.entries[c.order[0]]]
  {
    hide Trimmed, Evicted;
    GrownListsItsKeys(c, key, path);
    EntriesMatchOrder(Grown(c, key, path));
    if |c.order| == c.capacity {
      FrontIsDropped(Grown(c, key, path));
    } else {
      NothingToTrim(Grown(c, key, path));
    }
  }

  lemma FrontIsDropped(g: Cache)
    requires Distinct(g.order) && (forall k :: k in g.order <==> k in g.entries) && |g.order| == g.capacity + 1
    ensures var t := Cache(g.capacity, g.entries - {g.order[0]}, g.order[1..]);
      Trimmed(g) == t && Evicted(g) == [g.entries[g.order[0]]]
      && Distinct(t.order) && (forall k :: k in t.order <==> k in t.entries)
  {
    WithoutTheFront(g);
    EntriesMatchOrder(g);
    EntriesMatchOrder(Cache(g.capacity, g.entries - {g.order[0]}, g.order[1..]));
    hide Distinct, Trimmed, Evicted;
    TrimStep(g);
    NothingToTrim(Cache(g.capacity, g.entries - {g.order[0]}, g.order[1..]));
  }

  lemma GrownListsItsKeys(c: Cache, key: Key, path: Path)
    requires Valid(c) && key !in c.entries
    ensures var g := Grown(c, key, path);
      Distinct(g.order) && (forall k :: k in g.order <==> k in g.entries) && |g.order| == |c.order| + 1
  {
  }

  lemma WithoutTheFront(c: Cache)
    requires Distinct(c.order) && (forall k :: k in c.order <==> k in c.entries) && c.order != []
    ensures Distinct(c.order[1..])
    ensures forall k :: k in c.order[1..] <==> k in c.entries - {c.order[0]}
  {
  }

  lemma GetKeepsValid(c: Cache, key: Key)
    requires Valid(c)
    ensures Valid(Got(c, key)) && Got(c, key).entries == c.entries
  {
    ToBackKeepsKeys(c.order, key);
  }

  lemma InsertKeepsValid(c: Cache, key: Key, path: Path)
    requires Valid(c)
    ensures Valid(Inserted(c, key, path))
    ensures key in Inserted(c, key, path).entries && Inserted(c, key, path).entries[key] == path
  {
    if key in c.entries {
      ToBackKeepsKeys(c.order, key);
    } else {
      InsertingANewKey(c, key, path);
    }
  }

  lemma ForgetKeepsValid(c: Cache, key: Key)
    requires Valid(c)
    ensures Valid(Forgotten(c, key)) && Forgotten(c, key).entries == c.entries - {key}
  {
  }

  datatype Op = Get(key: Key) | Forget(key: Key) | Contains(key: Key) | Insert(key: Key, path: Path) | Clear

  function Step(c: Cache, op: Op): Cache {
    match op
    case Get(key) => Got(c, key)
    case Forget(key) => Forgotten(c, key)
    case Contains(_) => c
    case Insert(key, path) => Inserted(c, key, path)
    case Clear => Cleared(c)
  }

  /** What is held after an operation, and under which path. */
  lemma EntriesAfter(c: Cache, op: Op, k: Key)
    requires Valid(c)
    ensures k in Step(c, op).entries <==>
      match op
      case Forget(key) => k in c.entries && k != key
      case Clear => false
      case Insert(key, _) =>
        || k == key
        || (k in c.entries && (key !in c.entries && |c.entries| == c.capacity ==> k != c.order[0]))
      case _ => k in c.entries
    ensures k in Step(c, op).entries ==>
      Step(c, op).entries[k] == if op.Insert? && k == op.key then op.path else c.entries[k]
  {
    EntriesMatchOrder(c);
    if op.Insert? && op.key !in c.entries {
      InsertingANewKey(c, op.key, op.path);
      assert |c.order| == c.capacity ==> c.order[0] in c.entries;
      hide Trimmed, Evicted, Distinct;
    }
  }

  function After(c: Cache, ops: seq<Op>): Cache {
    if ops == [] then c else Step(After(c, ops[..|ops| - 1]), ops[|ops| - 1])
  }

  lemma StepKeepsValid(c: Cache, op: Op)
    requires Valid(c)
    ensures Valid(Step(c, op)) && Step(c, op).capacity == c.capacity
  {
    match op {
      case Get(key) => GetKeepsValid(c, key);
      case Forget(key) => ForgetKeepsValid(c, key);
      case Contains(_) =>
      case Insert(key, path) =>
        if key in c.entries { ToBackKeepsKeys(c.order, key); } else { InsertingANewKey(c, key, path); }
      case Clear =>
    }
  }

  /** Whatever is asked of it, the cache stays within its bound and lists exactly what it holds. */
  lemma {:induction false} TraceKeepsValid(c: Cache, ops: seq<Op>)
    requires Valid(c)
    ensures Valid(After(c, ops)) && After(c, ops).capacity == c.capacity
    ensures |After(c, ops).entries| <= c.capacity
  {
    hide Step;
    if ops != [] {
      TraceKeepsValid(c, ops[..|ops| - 1]);
      StepKeepsValid(After(c, ops[..|ops| - 1]), ops[|ops| - 1]);
    }
    EntriesMatchOrder(After(c, ops));
  }

  // Least-recently-used, said without any cache.

  /** The keys of a list of uses, by last use, longest ago first. */
  function ByLastUse(uses: seq<Key>): seq<Key> {
    if uses == [] then []
    else
      var (before, key) := (uses[..|uses| - 1], uses[|uses| - 1]);
      Removed(ByLastUse(before), key) + [key]
  }

  /** Where `key` was last used; -1 if never. */
  function LastUse(uses: seq<Key>, key: Key): (i: int)
    ensures -1 <= i < |uses|
    ensures i >= 0 ==> uses[i] == key
    ensures forall j :: i < j < |uses| ==> uses[j] != key
  {
    if uses == [] then -1
    else if uses[|uses| - 1] == key then |uses| - 1
    else LastUse(uses[..|uses| - 1], key)
  }

  lemma LastUseOfUsed(before: seq<Key>, key: Key, x: Key)
    ensures LastUse(before + [key], x) == if x == key then |before| else LastUse(before, x)
  {
    assert (before + [key])[..|before|] == before;
  }

  /** The list names every used key once, in the order of their last uses. */
  lemma {:induction false} ByLastUseSorts(uses: seq<Key>)
    ensures Distinct(ByLastUse(uses))
    ensures forall k :: k in ByLastUse(uses) <==> k in uses
    ensures SortedByLastUse(uses, ByLastUse(uses))
  {
    if uses != [] {
      var before, key := uses[..|uses| - 1], uses[|uses| - 1];
      assert uses == before + [key];
      assert ByLastUse(uses) == Removed(ByLastUse(before), key) + [key];
      hide *;
      ByLastUseSorts(before);
      OneMoreSorted(before, key, ByLastUse(before));
    }
  }

  ghost predicate SortedByLastUse(uses: seq<Key>, keys: seq<Key>) {
    forall i, j :: 0 <= i < j < |keys| ==> LastUse(uses, keys[i]) < LastUse(uses, keys[j])
  }

  /** A key used once more goes to the back. */
  lemma OneMoreSorted(before: seq<Key>, key: Key, keys: seq<Key>)
    requires Distinct(keys) && SortedByLastUse(before, keys) && forall k :: k in keys <==> k in before
    ensures var r := Removed(keys, key) + [key];
      Distinct(r) && SortedByLastUse(before + [key], r) && forall k :: k in r <==> k in before + [key]
  {
    RemovedKeepsRest(keys, key);
    var rest := Removed(keys, key);
    hide Removed, LastUse;
    forall i, j | 0 <= i < j < |rest + [key]|
      ensures LastUse(before + [key], (rest + [key])[i]) < LastUse(before + [key], (rest + [key])[j])
    {
      assert rest[i] in rest;
      LastUseOfUsed(before, key, rest[i]);
      RemovedAt(keys, key, i);
      if j < |rest| {
        assert rest[j] in rest;
        LastUseOfUsed(before, key, rest[j]);
        RemovedAt(keys, key, j);
      } else {
        LastUseOfUsed(before, key, key);
      }
    }
  }

  /** The last `n` entries. */
  function Newest<T>(s: seq<T>, n: nat): seq<T> {
    if |s| <= n then s else s[|s| - n..]
  }

  /** What an operation uses: a hit, or a key put in. */
  function UsesOf(c: Cache, op: Op): seq<Key> {
    match op
    case Get(key) => if key in c.entries then [key] else []
    case Insert(key, _) => [key]
    case _ => []
  }

  function Uses(c: Cache, ops: seq<Op>): seq<Key> {
    if ops == [] then []
    else Uses(c, ops[..|ops| - 1]) + UsesOf(After(c, ops[..|ops| - 1]), ops[|ops| - 1])
  }

  predicate NoLoss(ops: seq<Op>) {
    forall i :: 0 <= i < |ops| ==> !ops[i].Forget? && !ops[i].Clear?
  }

  lemma NewestIs<T>(front: seq<T>, back: seq<T>, n: nat)
    requires |back| == n || (front == [] && |back| <= n)
    ensures Newest(front + back, n) == back
  {
  }

  /** The entries that fell off, followed by the newest n. */
  function Older<T>(s: seq<T>, n: nat): (front: seq<T>)
    ensures front + Newest(s, n) == s
    ensures |Newest(s, n)| == n || (front == [] && |Newest(s, n)| <= n)
  {
    s[..|s| - |Newest(s, n)|]
  }

  /** Moving a held key to the back of the newest n is the same before and after cutting. */
  lemma UseAHeldKey(all: seq<Key>, n: nat, key: Key)
    requires Distinct(all) && key in Newest(all, n)
    ensures ToBack(Newest(all, n), key) == Newest(Removed(all, key) + [key], n)
  {
    var front, back := Older(all, n), Newest(all, n);
    NotInFront(front, back, key);
    RemovedFromConcat(front, back, key);
    RemovedLength(back, key);
    hide Newest, Removed, Distinct;
    NewestIs(front, Removed(back, key) + [key], n);
    assert front + Removed(back, key) + [key] == front + (Removed(back, key) + [key]);
  }

  lemma NotInFront(front: seq<Key>, back: seq<Key>, key: Key)
    requires Distinct(front + back) && key in back
    ensures key !in front
  {
    var j :| 0 <= j < |back| && back[j] == key;
    assert (front + back)[|front| + j] == key;
    assert forall i :: 0 <= i < |front| ==> (front + back)[i] == front[i];
  }

  lemma RemovedBeforeBack(front: seq<Key>, back: seq<Key>, key: Key)
    requires key !in back
    ensures Removed(front + back, key) == Removed(front, key) + back
  {
    hide Removed;
    RemovedFromConcat(front, back, key);
    AbsentStays(back, key);
    if key !in front {
      AbsentStays(front, key);
    }
  }

  lemma AppendToNewest<T>(rest: seq<T>, back: seq<T>, x: T, n: nat)
    requires n >= 1 && (|back| == n || (rest == [] && |back| < n))
    ensures Newest(rest + back + [x], n) == if |back| < n then back + [x] else back[1..] + [x]
  {
    hide Newest;
    if |back| < n {
      assert rest + back + [x] == rest + (back + [x]);
      NewestIs(rest, back + [x], n);
    } else {
      assert rest + back + [x] == (rest + [back[0]]) + (back[1..] + [x]);
      NewestIs(rest + [back[0]], back[1..] + [x], n);
    }
  }

  lemma UseANewKey(all: seq<Key>, n: nat, key: Key)
    requires key !in Newest(all, n) && n >= 1
    ensures Newest(Removed(all, key) + [key], n)
      == if |Newest(all, n)| < n then Newest(all, n) + [key] else Newest(all, n)[1..] + [key]
  {
    hide Newest, Removed;
    var front, back := Older(all, n), Newest(all, n);
    RemovedBeforeBack(front, back, key);
    RemovedLength(front, key);
    AppendToNewest(Removed(front, key), back, key, n);
  }

  lemma UseStep(c: Cache, op: Op, all: seq<Key>)
    requires Valid(c) && Distinct(all) && c.order == Newest(all, c.capacity)
    requires !op.Forget? && !op.Clear?
    ensures Step(c, op).order
      == Newest(if UsesOf(c, op) == [] then all else Removed(all, op.key) + [op.key], c.capacity)
  {
    hide Removed, Newest, ToBack;
    match op {
      case Get(key) =>
        if key in c.entries { UseAHeldKey(all, c.capacity, key); }
      case Contains(_) =>
      case Insert(key, path) =>
        if key in c.entries {
          UseAHeldKey(all, c.capacity, key);
        } else {
          InsertingANewKey(c, key, path);
          UseANewKey(all, c.capacity, key);
        }
    }
  }

  /** As long as nothing is forgotten, the cache holds the most recently used keys, oldest first. */
  lemma {:induction false} IsLeastRecentlyUsed(capacity: nat, ops: seq<Op>)
    requires NoLoss(ops)
    ensures var (c, uses) := (After(NewCache(capacity), ops), Uses(NewCache(capacity), ops));
      c.order == Newest(ByLastUse(uses), c.capacity)
  {
    if ops != [] {
      var before, op := ops[..|ops| - 1], ops[|ops| - 1];
      assert forall i :: 0 <= i < |before| ==> before[i] == ops[i];
      IsLeastRecentlyUsed(capacity, before);
      var c, uses := After(NewCache(capacity), before), Uses(NewCache(capacity), before);
      TraceKeepsValid(NewCache(capacity), before);
      ByLastUseSorts(uses);
      TraceKeepsValid(NewCache(capacity), ops);
      hide Newest, Distinct, Valid, Step, ByLastUse, LastUse, Removed;
      UseStep(c, op, ByLastUse(uses));
      OneMoreUse(uses, UsesOf(c, op), op);
      assert Uses(NewCache(capacity), ops) == uses + UsesOf(c, op);
    }
  }

  lemma OneMoreUse(uses: seq<Key>, more: seq<Key>, op: Op)
    requires op.Clear? ==> more == []
    requires more == [] || more == [op.key]
    ensures ByLastUse(uses + more)
      == if more == [] then ByLastUse(uses) else Removed(ByLastUse(uses), op.key) + [op.key]
  {
    if more == [] {
      assert uses + more == uses;
    } else {
      assert (uses + more)[..|uses|] == uses;
    }
  }

  // Frame requests.

  /** One request for a frame: a hit whose file is still there is served, anything else is decoded anew. */
  function Requested(c: Cache, key: Key, onDisk: set<Path>, decoded: Option<Path>): (Cache, Option<Path>) {
    if key in c.entries && c.entries[key] in onDisk then (Got(c, key), Some(c.entries[key]))
    else
      var c' := if key in c.entries then Forgotten(Got(c, key), key) else c;
      match decoded
      case None => (c', None)
      case Some(path) => (Inserted(c', key, path), Some(path))
  }

  datatype Request = Request(key: Key, onDisk: set<Path>, decoded: Option<Path>)

  function Serve(c: Cache, rs: seq<Request>): Cache {
    if rs == [] then c
    else
      var r := rs[|rs| - 1];
      Requested(Serve(c, rs[..|rs| - 1]), r.key, r.onDisk, r.decoded).0
  }

  function KeysOf(rs: seq<Request>): (ks: seq<Key>)
    ensures |ks| == |rs| && forall i :: 0 <= i < |rs| ==> ks[i] == rs[i].key
  {
    seq(|rs|, i requires 0 <= i < |rs| => rs[i].key)
  }

  predicate AllDecode(rs: seq<Request>) {
    forall i :: 0 <= i < |rs| ==> rs[i].decoded.Some?
  }

  lemma {:induction false} ServeKeepsValid(c: Cache, rs: seq<Request>)
    requires Valid(c)
    ensures Valid(Serve(c, rs)) && Serve(c, rs).capacity == c.capacity
  {
    if rs != [] {
      var r, before := rs[|rs| - 1], Serve(c, rs[..|rs| - 1]);
      ServeKeepsValid(c, rs[..|rs| - 1]);
      RequestKeepsValid(before, r.key, r.onDisk, r.decoded);
    }
  }

  /** A request that succeeds leaves its frame in the cache, at the back of the queue. */
  lemma RequestKeepsValid(c: Cache, key: Key, onDisk: set<Path>, decoded: Option<Path>)
    requires Valid(c)
    ensures var (c', path) := Requested(c, key, onDisk, decoded);
      && Valid(c') && c'.capacity == c.capacity
      && (path.Some? ==> key in c'.entries && c'.entries[key] == path.value)
      && (path.None? ==> key !in c'.entries)
      && (path.None? <==> decoded.None? && !(key in c.entries && c.entries[key] in onDisk))
  {
    hide Valid, Inserted, Got;
    GetKeepsValid(c, key);
    ForgetKeepsValid(Got(c, key), key);
    if decoded.Some? {
      InsertKeepsValid(c, key, decoded.value);
      InsertKeepsValid(Forgotten(Got(c, key), key), key, decoded.value);
      InsertKeepsCapacity(c, key, decoded.value);
      InsertKeepsCapacity(Forgotten(Got(c, key), key), key, decoded.value);
    }
    GetKeepsCapacity(c, key);
  }

  /**
    A request is answered with the path held, if its file is there, and otherwise with what was decoded; then that
    is what is held under its key. Other keys keep their paths, less the front of a full queue if the key is new.
   */
  lemma RequestEffect(c: Cache, r: Request, k: Key)
    requires Valid(c)
    ensures var (c', path) := Requested(c, r.key, r.onDisk, r.decoded);
      && path == (if r.key in c.entries && c.entries[r.key] in r.onDisk then Some(c.entries[r.key]) else r.decoded)
      && (k == r.key ==> if path.Some? then k in c'.entries && c'.entries[k] == path.value else k !in c'.entries)
      && (k != r.key ==>
            && (k in c'.entries <==>
                  k in c.entries
                  && !(r.key !in c.entries && path.Some? && |c.entries| == c.capacity && k == c.order[0]))
            && (k in c'.entries ==> c'.entries[k] == c.entries[k]))
  {
    hide Valid, Inserted, Got;
    GetKeepsValid(c, r.key);
    ForgetKeepsValid(Got(c, r.key), r.key);
    if r.decoded.Some? {
      EntriesAfter(c, Insert(r.key, r.decoded.value), k);
      InsertKeepsValid(c, r.key, r.decoded.value);
      InsertKeepsValid(Forgotten(Got(c, r.key), r.key), r.key, r.decoded.value);
      if r.key in c.entries {
        RoomAfterForgetting(c, r.key);
        EntriesAfter(Forgotten(Got(c, r.key), r.key), Insert(r.key, r.decoded.value), k);
      }
    }
  }

  lemma RoomAfterForgetting(c: Cache, key: Key)
    requires Valid(c) && key in c.entries
    ensures var f := Forgotten(Got(c, key), key); f.capacity == c.capacity && |f.entries| < f.capacity
  {
    GetKeepsValid(c, key);
    ForgetKeepsValid(Got(c, key), key);
    EntriesMatchOrder(c);
    hide Removed, ToBack;
  }

  lemma GetKeepsCapacity(c: Cache, key: Key)
    ensures Got(c, key).capacity == c.capacity
  {
  }

  lemma InsertKeepsCapacity(c: Cache, key: Key, path: Path)
    requires Valid(c)
    ensures Inserted(c, key, path).capacity == c.capacity
  {
    if key !in c.entries { InsertingANewKey(c, key, path); }
  }

  lemma RequestUses(c: Cache, r: Request, all: seq<Key>)
    requires Valid(c) && Distinct(all) && c.order == Newest(all, c.capacity) && r.decoded.Some?
    ensures Requested(c, r.key, r.onDisk, r.decoded).0.order
      == Newest(Removed(all, r.key) + [r.key], c.capacity)
  {
    var key := r.key;
    if key !in c.entries {
      UseStep(c, Insert(key, r.decoded.value), all);
    } else {
      UseStep(c, Get(key), all);
      if c.entries[key] !in r.onDisk {
        ForgetThenInsert(c, key, r.decoded.value);
      }
    }
  }

  /** Decoding a vanished frame anew leaves the queue as a hit would have. */
  lemma ForgetThenInsert(c: Cache, key: Key, path: Path)
    requires Valid(c) && key in c.entries
    ensures Inserted(Forgotten(Got(c, key), key), key, path).order == Got(c, key).order
  {
    hide Inserted;
    var g := Got(c, key);
    var rest := Removed(c.order, key);
    GetKeepsValid(c, key);
    ForgetKeepsValid(g, key);
    RemovedKeepsRest(c.order, key);
    RemovedFromConcat(rest, [key], key);
    assert g.order == rest + [key];
    RemovedFromConcat([], [key], key);
    assert Removed([key], key) == [];
    hide Got, Removed, Distinct;
    InsertingANewKey(Forgotten(g, key), key, path);
  }

  /** After any requests that succeed, the cache holds the most recently requested frames. */
  lemma {:induction false} ServesTheMostRecent(capacity: nat, rs: seq<Request>)
    requires AllDecode(rs)
    ensures var c := Serve(NewCache(capacity), rs); c.order == Newest(ByLastUse(KeysOf(rs)), c.capacity)
  {
    if rs != [] {
      var before, r := rs[..|rs| - 1], rs[|rs| - 1];
      ServesTheMostRecent(capacity, before);
      var c := Serve(NewCache(capacity), before);
      ServeKeepsValid(NewCache(capacity), before);
      ServeKeepsValid(NewCache(capacity), rs);
      ByLastUseSorts(KeysOf(before));
      assert KeysOf(rs)[..|rs| - 1] == KeysOf(before);
      hide Valid, Newest, Requested;
      RequestUses(c, r, ByLastUse(KeysOf(before)));
    }
  }

  /**
    When every decode succeeds, a larger cache holds whatever a smaller one does after the same
    requests, even if one key decodes to different files.
   */
  lemma LargerCacheHoldsMoreDecoded(small: nat, large: nat, rs: seq<Request>)
    requires AllDecode(rs) && small <= large
    ensures forall k :: k in Serve(NewCache(small), rs).entries ==> k in Serve(NewCache(large), rs).entries
  {
    ServesTheMostRecent(small, rs);
    ServesTheMostRecent(large, rs);
    ServeKeepsValid(NewCache(small), rs);
    ServeKeepsValid(NewCache(large), rs);
    var all := ByLastUse(KeysOf(rs));
    hide Serve, ByLastUse;
    NewestGrows(all, NewCache(small).capacity, NewCache(large).capacity);
  }

  lemma NewestGrows<T>(s: seq<T>, m: nat, n: nat)
    requires m <= n
    ensures forall x :: x in Newest(s, m) ==> x in Newest(s, n)
  {
  }

  // The cache as the daemon holds it.

  class PreviewCache {
    const capacity: nat
    var entries: map<Key, Path>
    var order: seq<Key>

    ghost function View(): Cache
      reads this
    {
      Cache(capacity, entries, order)
    }

    constructor (capacity: nat)
      ensures View() == NewCache(capacity)
    {
      this.capacity := if capacity == 0 then 1 else capacity;
      entries := map[];
      order := [];
    }

    method Touch(key: Key)
      modifies this`order
      ensures order == ToBack(old(order), key)
    {
      var at := Position(order, key);
      if at < |order| {
        var k := order[at];
        order := order[..at] + order[at + 1..];
        order := order + [k];
      }
    }

    method Get(key: Key) returns (path: Option<Path>)
      modifies this`order
      ensures View() == Got(old(View()), key)
      ensures path == if key in entries then Some(entries[key]) else None
    {
      if key !in entries {
        return None;
      }
      path := Some(entries[key]);
      Touch(key);
    }

    method Forget(key: Key)
      modifies this
      ensures View() == Forgotten(old(View()), key)
    {
      entries := entries - {key};
      var at := Position(order, key);
      if at < |order| {
        order := order[..at] + order[at + 1..];
      }
    }

    method Insert(key: Key, path: Path) returns (evicted: seq<Path>)
      modifies this
      ensures View() == Inserted(old(View()), key, path)
      ensures evicted == if key in old(entries) then [] else Evicted(Grown(old(View()), key, path))
    {
      if key in entries {
        entries := entries[key := path];
        Touch(key);
        return [];
      }
      entries := entries[key := path];
      order := order + [key];
      evicted := EvictOldest();
    }

    /** Pop the front of the queue while the bound is exceeded. */
    method EvictOldest() returns (evicted: seq<Path>)
      modifies this
      ensures View() == Trimmed(old(View()))
      ensures evicted == Evicted(old(View()))
    {
      hide Trimmed, Evicted;
      evicted := [];
      while |entries| > capacity && order != []
        invariant Trimmed(View()) == Trimmed(old(View()))
        invariant evicted + Evicted(View()) == Evicted(old(View()))
        decreases |order|
      {
        TrimStep(View());
        var oldest := order[0];
        order := order[1..];
        if oldest in entries {
          evicted := evicted + [entries[oldest]];
        }
        entries := entries - {oldest};
      }
      NothingToTrim(View());
    }

    method ClearAll()
      modifies this
      ensures View() == Cleared(old(View()))
    {
      entries := map[];
      order := [];
    }
  }

  class PreviewSurface {
    const cache: PreviewCache

    constructor (capacity: nat)
      ensures fresh(cache) && cache.View() == NewCache(capacity)
    {
      cache := new PreviewCache(capacity);
    }

    /** `onDisk` and `decoded` are what the file system and the decoder would answer. */
    method Frame(key: Key, onDisk: set<Path>, decoded: Option<Path>) returns (path: Option<Path>)
      modifies cache
      ensures (cache.View(), path) == Requested(old(cache.View()), key, onDisk, decoded)
    {
      var hit := cache.Get(key);
      if hit.Some? {
        if hit.value in onDisk {
          return hit;
        }
        cache.Forget(key);
      }
      if decoded.None? {
        return None;
      }
      var evicted := cache.Insert(key, decoded.value);
      return decoded;
    }
  }
}
