/** Two preview caches of different sizes that serve the same requests, decodes that fail included. */
module PreviewSizes {
  import opened Wrappers
  import opened Sequences
  import opened Preview

  /** `s` is `l` with some entries left out. */
  predicate Sub(s: seq<Key>, l: seq<Key>) {
    s == [] || (l != [] && if s[0] == l[0] then Sub(s[1..], l[1..]) else Sub(s, l[1..]))
  }

  lemma {:induction false} SubMembers(s: seq<Key>, l: seq<Key>)
    requires Sub(s, l)
    ensures forall x :: x in s ==> x in l
  {
    if s != [] {
      assert s == [s[0]] + s[1..] && l == [l[0]] + l[1..];
      if s[0] == l[0] {
        SubMembers(s[1..], l[1..]);
      } else {
        SubMembers(s, l[1..]);
      }
    }
  }

  lemma {:induction false} SubDrop(s: seq<Key>, l: seq<Key>)
    requires Sub(s, l) && s != []
    ensures Sub(s[1..], l) && l != [] && Sub(s[1..], l[1..])
  {
    SubShorter(s, l);
    if s[0] != l[0] {
      SubShorter(s, l[1..]);
    }
  }

  lemma {:induction false} SubExtend(s: seq<Key>, l: seq<Key>, y: Key)
    requires Sub(s, l)
    ensures Sub(s, [y] + l)
    decreases |l|, 1
  {
    assert ([y] + l)[1..] == l;
    if s != [] && s[0] == y {
      SubShorter(s, l);
    }
  }

  lemma {:induction false} SubShorter(s: seq<Key>, l: seq<Key>)
    requires Sub(s, l) && s != []
    ensures Sub(s[1..], l)
    decreases |l|, 0
  {
    assert l == [l[0]] + l[1..];
    if s[0] == l[0] {
      SubExtend(s[1..], l[1..], l[0]);
    } else {
      SubShorter(s, l[1..]);
      SubExtend(s[1..], l[1..], l[0]);
    }
  }

  lemma {:induction false} SubAppend(s: seq<Key>, l: seq<Key>, x: Key)
    requires Sub(s, l)
    ensures Sub(s, l + [x]) && Sub(s + [x], l + [x])
  {
    if l == [] {
      assert s + [x] == [x] && l + [x] == [x];
    } else {
      assert (l + [x])[1..] == l[1..] + [x];
      if s != [] && s[0] == l[0] {
        assert (s + [x])[1..] == s[1..] + [x];
        SubAppend(s[1..], l[1..], x);
      } else {
        SubAppend(s, l[1..], x);
        if s == [] { assert s + [x] == [x]; }
      }
    }
  }

  lemma RemoveHead(s: seq<Key>, x: Key)
    requires s != []
    ensures s[0] == x ==> Removed(s, x) == s[1..]
    ensures s[0] != x ==> Removed(s, x) == [s[0]] + Removed(s[1..], x)
  {
    assert s == [s[0]] + s[1..];
    RemovedFromConcat([s[0]], s[1..], x);
    assert s[0] == x ==> Removed([s[0]], x) == [];
  }

  lemma {:induction false} SubRemove(s: seq<Key>, l: seq<Key>, x: Key)
    requires Sub(s, l) && Distinct(l)
    ensures Sub(Removed(s, x), Removed(l, x))
  {
    hide Removed;
    if s == [] {
      AbsentStays(s, x);
    } else {
      RemoveHead(l, x);
      RemoveHead(s, x);
      assert Distinct(l[1..]);
      assert l[0] !in l[1..];
      if s[0] == l[0] {
        SubRemove(s[1..], l[1..], x);
        if s[0] != x { SubCons(Removed(s[1..], x), Removed(l[1..], x), s[0]); }
      } else {
        SubMembers(s, l[1..]);
        SubRemove(s, l[1..], x);
        if l[0] == x {
          AbsentStays(s, x);
        } else {
          SubExtend(Removed(s, x), Removed(l[1..], x), l[0]);
        }
      }
    }
  }

  lemma SubCons(s: seq<Key>, l: seq<Key>, y: Key)
    requires Sub(s, l)
    ensures Sub([y] + s, [y] + l)
  {
    assert ([y] + s)[1..] == s && ([y] + l)[1..] == l;
  }

  // ------------------------------------------------------------- one request

  /** What is left of a queue that may hold `capacity` keys. */
  function Fitted(order: seq<Key>, capacity: nat): seq<Key> {
    if |order| > capacity then order[1..] else order
  }

  predicate Succeeds(c: Cache, r: Request) {
    (r.key in c.entries && c.entries[r.key] in r.onDisk) || r.decoded.Some?
  }

  function After(c: Cache, r: Request): Cache {
    Requested(c, r.key, r.onDisk, r.decoded).0
  }

  /** A request that succeeds puts its key at the back; one that fails leaves it out. */
  lemma QueueAfter(c: Cache, r: Request)
    requires Valid(c)
    ensures After(c, r).order
      == if Succeeds(c, r) then Fitted(Removed(c.order, r.key) + [r.key], c.capacity) else Removed(c.order, r.key)
  {
    RemovedLength(c.order, r.key);
    if r.key in c.entries {
      QueueAfterHeld(c, r);
    } else {
      AbsentStays(c.order, r.key);
      hide Removed, Distinct, Inserted;
      if r.decoded.Some? {
        InsertingANewKey(c, r.key, r.decoded.value);
        assert (c.order + [r.key])[1..] == if c.order == [] then [] else c.order[1..] + [r.key];
      }
    }
  }

  lemma QueueAfterHeld(c: Cache, r: Request)
    requires Valid(c) && r.key in c.entries
    ensures After(c, r).order
      == if Succeeds(c, r) then Fitted(Removed(c.order, r.key) + [r.key], c.capacity) else Removed(c.order, r.key)
  {
    RemovedLength(c.order, r.key);
    assert Got(c, r.key).order == Removed(c.order, r.key) + [r.key];
    if r.decoded.Some? {
      ForgetThenInsert(c, r.key, r.decoded.value);
    }
    RemovedKeepsRest(c.order, r.key);
    RemovedFromConcat(Removed(c.order, r.key), [r.key], r.key);
    RemovedFromConcat([], [r.key], r.key);
    assert Removed([r.key], r.key) == [];
    hide Removed, Inserted, Distinct;
  }

  /** The smaller queue is part of the larger, its room is no greater, and both know the same path for a key. */
  ghost predicate Nested(s: Cache, l: Cache) {
    && Valid(s) && Valid(l)
    && Sub(s.order, l.order)
    && s.capacity - |s.order| <= l.capacity - |l.order|
  }

  predicate Agree(s: Cache, l: Cache) {
    forall k :: k in s.entries && k in l.entries ==> s.entries[k] == l.entries[k]
  }

  /** The queue lengths, once `k` has been taken out of both. */
  lemma RoomAfterRemoval(s: Cache, l: Cache, k: Key)
    requires Nested(s, l)
    ensures var (a, b) := (Removed(s.order, k), Removed(l.order, k));
      Sub(a, b) && s.capacity - |a| <= l.capacity - |b| && |a| <= s.capacity && |b| <= l.capacity
  {
    SubRemove(s.order, l.order, k);
    SubMembers(s.order, l.order);
    RemovedLength(s.order, k);
    RemovedLength(l.order, k);
    hide Removed, Sub;
  }

  lemma FittedNested(a: seq<Key>, b: seq<Key>, k: Key, m: nat, n: nat)
    requires Sub(a, b) && m - |a| <= n - |b| && |a| <= m && |b| <= n && m >= 1
    ensures var (s, l) := (Fitted(a + [k], m), Fitted(b + [k], n));
      Sub(s, l) && m - |s| <= n - |l|
  {
    hide Sub;
    SubAppend(a, b, k);
    if |a| == m {
      SubDrop(a, b);
      SubAppend(a[1..], b, k);
      SubAppend(a[1..], b[1..], k);
      assert (a + [k])[1..] == a[1..] + [k] && (b + [k])[1..] == b[1..] + [k];
    }
  }

  lemma RequestKeepsNested(s: Cache, l: Cache, r: Request)
    requires Nested(s, l) && Agree(s, l)
    ensures Nested(After(s, r), After(l, r))
  {
    RequestKeepsValid(s, r.key, r.onDisk, r.decoded);
    RequestKeepsValid(l, r.key, r.onDisk, r.decoded);
    QueueAfter(s, r);
    QueueAfter(l, r);
    RoomAfterRemoval(s, l, r.key);
    SubMembers(s.order, l.order);
    assert Succeeds(s, r) ==> Succeeds(l, r);
    var a, b := Removed(s.order, r.key), Removed(l.order, r.key);
    FittedNested(a, b, r.key, s.capacity, l.capacity);
    if Succeeds(l, r) && !Succeeds(s, r) {
      ServedByLargerAlone(s, l, r);
    }
  }

  /** A frame only the larger cache still has, and that cannot be decoded: the smaller one stays as it was. */
  lemma ServedByLargerAlone(s: Cache, l: Cache, r: Request)
    requires Nested(s, l) && Agree(s, l) && Succeeds(l, r) && !Succeeds(s, r)
    ensures var (a, b) := (Removed(s.order, r.key), Fitted(Removed(l.order, r.key) + [r.key], l.capacity));
      Sub(a, b) && s.capacity - |a| <= l.capacity - |b|
  {
    assert r.key in l.entries && r.key !in s.order;
    RoomAfterRemoval(s, l, r.key);
    RemovedLength(l.order, r.key);
    AbsentStays(s.order, r.key);
    hide Removed, Distinct;
    SubAppend(s.order, Removed(l.order, r.key), r.key);
  }

  // ------------------------------------------------------------ any requests

  /** A key always decodes to the same file. */
  predicate OnePathPerKey(rs: seq<Request>) {
    forall i, j ::
      0 <= i < |rs| && 0 <= j < |rs| && rs[i].key == rs[j].key && rs[i].decoded.Some? && rs[j].decoded.Some? ==>
      rs[i].decoded == rs[j].decoded
  }

  ghost predicate Decoded(rs: seq<Request>, k: Key, path: Path) {
    exists i :: 0 <= i < |rs| && rs[i].key == k && rs[i].decoded == Some(path)
  }

  /** Every path held was decoded for its key. */
  lemma {:induction false} PathsWereDecoded(c: Cache, rs: seq<Request>, k: Key)
    requires Valid(c) && c.entries == map[] && k in Serve(c, rs).entries
    ensures Decoded(rs, k, Serve(c, rs).entries[k])
  {
    if rs != [] {
      var init, r := rs[..|rs| - 1], rs[|rs| - 1];
      var before := Serve(c, init);
      ServeKeepsValid(c, init);
      PathComesFrom(before, r, k);
      if r.key != k || r.decoded != Some(After(before, r).entries[k]) {
        PathsWereDecoded(c, init, k);
        var i :| 0 <= i < |init| && init[i].key == k && init[i].decoded == Some(before.entries[k]);
        assert rs[i] == init[i];
      } else {
        assert rs[|rs| - 1] == r;
      }
    }
  }

  lemma PathComesFrom(c: Cache, r: Request, k: Key)
    requires Valid(c) && k in After(c, r).entries
    ensures || (r.key == k && r.decoded == Some(After(c, r).entries[k]))
            || (k in c.entries && After(c, r).entries[k] == c.entries[k])
  {
    if r.decoded.Some? {
      InsertedPaths(c, r.key, r.decoded.value, k);
      InsertedPaths(Forgotten(Got(c, r.key), r.key), r.key, r.decoded.value, k);
    }
    hide Inserted;
  }

  lemma InsertedPaths(c: Cache, key: Key, path: Path, k: Key)
    ensures k in Inserted(c, key, path).entries ==>
      || (Inserted(c, key, path).entries[k] == path && k == key)
      || (k in c.entries && Inserted(c, key, path).entries[k] == c.entries[k])
  {
    TrimmedPaths(Grown(c, key, path), k);
    hide Trimmed;
  }

  lemma {:induction false} TrimmedPaths(c: Cache, k: Key)
    ensures k in Trimmed(c).entries ==> k in c.entries && Trimmed(c).entries[k] == c.entries[k]
    decreases |c.order|
  {
    if |c.entries| > c.capacity && c.order != [] {
      TrimmedPaths(Cache(c.capacity, c.entries - {c.order[0]}, c.order[1..]), k);
    }
  }

  lemma {:induction false} ServedNested(small: nat, large: nat, rs: seq<Request>)
    requires small <= large && OnePathPerKey(rs)
    ensures Nested(Serve(NewCache(small), rs), Serve(NewCache(large), rs))
  {
    if rs != [] {
      var init, r := rs[..|rs| - 1], rs[|rs| - 1];
      var s, l := Serve(NewCache(small), init), Serve(NewCache(large), init);
      assert OnePathPerKey(init) by {
        assert forall i :: 0 <= i < |init| ==> init[i] == rs[i];
      }
      ServedNested(small, large, init);
      forall k | k in s.entries && k in l.entries ensures s.entries[k] == l.entries[k] {
        PathsWereDecoded(NewCache(small), init, k);
        PathsWereDecoded(NewCache(large), init, k);
      }
      hide Nested, Requested;
      RequestKeepsNested(s, l, r);
    }
  }

  /**
    A larger cache always holds whatever a smaller one does after the same requests,
    whichever decodes fail and whichever files vanish, so it never decodes a frame the
    smaller one would have served.
   */
  lemma LargerCacheHoldsMore(small: nat, large: nat, rs: seq<Request>)
    requires small <= large && (OnePathPerKey(rs) || AllDecode(rs))
    ensures forall k :: k in Serve(NewCache(small), rs).entries ==> k in Serve(NewCache(large), rs).entries
  {
    if OnePathPerKey(rs) {
      ServedNested(small, large, rs);
      SubMembers(Serve(NewCache(small), rs).order, Serve(NewCache(large), rs).order);
      hide Serve, Sub;
    } else {
      LargerCacheHoldsMoreDecoded(small, large, rs);
    }
  }

  // Two times that round to one key and to two files: 0.0625 s and 0.062 s, at three decimals and at milliseconds.

  const FIRST := Request("0.062", {}, Some("frame-63"))
  const BETWEEN := Request("1.000", {"frame-63"}, Some("frame-1000"))
  const AGAIN := Request("0.062", {"frame-63", "frame-1000"}, Some("frame-62"))
  const VANISHED := Request("0.062", {"frame-62", "frame-1000"}, None)

  function OneKeyTwoFiles(): seq<Request> {
    [FIRST] + [BETWEEN] + [AGAIN] + [VANISHED]
  }

  lemma ServeOne(c: Cache, rs: seq<Request>, r: Request)
    ensures Serve(c, rs + [r]) == After(Serve(c, rs), r)
  {
    assert (rs + [r])[..|rs|] == rs;
  }

  function One(capacity: nat, k: Key, path: Path): Cache {
    Cache(capacity, map[k := path], [k])
  }

  lemma FirstIsHeld(capacity: nat, r: Request)
    requires capacity > 0 && r.decoded.Some?
    ensures After(NewCache(capacity), r) == One(capacity, r.key, r.decoded.value)
  {
    assert NewCache(capacity).order + [r.key] == [r.key];
  }

  lemma OneIsReplaced(k: Key, path: Path, r: Request)
    requires r.key != k && r.decoded.Some?
    ensures After(One(1, k, path), r) == One(1, r.key, r.decoded.value)
  {
    var grown := Grown(One(1, k, path), r.key, r.decoded.value);
    assert grown.entries - {k} == map[r.key := r.decoded.value];
    assert grown.order[1..] == [r.key];
    assert |grown.entries| == 2 by { assert grown.entries.Keys == {k, r.key}; }
    var left := One(1, r.key, r.decoded.value);
    assert grown.entries - {grown.order[0]} == left.entries;
    TrimStep(grown);
    assert Trimmed(left) == left by { assert left.entries.Keys == {r.key}; }
  }

  function Both(j: Key, p: Path, k: Key, q: Path): Cache {
    Cache(2, map[j := p, k := q], [j, k])
  }

  lemma SecondIsHeld(k: Key, path: Path, r: Request)
    requires r.key != k && r.decoded.Some?
    ensures After(One(2, k, path), r) == Both(k, path, r.key, r.decoded.value)
  {
    var grown := Grown(One(2, k, path), r.key, r.decoded.value);
    assert grown == Both(k, path, r.key, r.decoded.value);
    assert |grown.entries| == 2 by { assert grown.entries.Keys == {k, r.key}; }
  }

  lemma OldestIsUsed(j: Key, p: Path, k: Key, q: Path, r: Request)
    requires j != k && r.key == j && p in r.onDisk
    ensures After(Both(j, p, k, q), r) == Both(k, q, j, p)
  {
    assert Position([j, k], j) == 0;
    assert ToBack([j, k], j) == [k, j];
  }

  lemma NewestIsLost(j: Key, p: Path, k: Key, q: Path, r: Request)
    requires j != k && r.key == k && q !in r.onDisk && r.decoded == None
    ensures After(Both(j, p, k, q), r) == One(2, j, p)
  {
    assert map[j := p, k := q] - {k} == map[j := p];
    assert Position([j, k], k) == 1 by { assert [j, k][1..] == [k]; }
    assert ToBack([j, k], k) == [j, k] && Removed([j, k], k) == [j];
  }

  lemma SmallCacheEnd()
    ensures Serve(NewCache(1), OneKeyTwoFiles()) == One(1, "0.062", "frame-62")
  {
    hide Serve;
    ServeNothing(NewCache(1));
    ServeOne(NewCache(1), [], FIRST);
    assert [] + [FIRST] == [FIRST];
    FirstIsHeld(1, FIRST);
    ServeOne(NewCache(1), [FIRST], BETWEEN);
    OneIsReplaced("0.062", "frame-63", BETWEEN);
    ServeOne(NewCache(1), [FIRST] + [BETWEEN], AGAIN);
    OneIsReplaced("1.000", "frame-1000", AGAIN);
    ServeOne(NewCache(1), [FIRST] + [BETWEEN] + [AGAIN], VANISHED);
    OneIsServed("0.062", "frame-62", VANISHED);
  }

  lemma ServeNothing(c: Cache)
    ensures Serve(c, []) == c
  {
  }

  lemma OneIsServed(k: Key, path: Path, r: Request)
    requires r.key == k && path in r.onDisk
    ensures After(One(1, k, path), r) == One(1, k, path)
  {
  }

  lemma LargeCacheEnd()
    ensures Serve(NewCache(2), OneKeyTwoFiles()) == One(2, "1.000", "frame-1000")
  {
    hide Serve;
    ServeNothing(NewCache(2));
    ServeOne(NewCache(2), [], FIRST);
    assert [] + [FIRST] == [FIRST];
    FirstIsHeld(2, FIRST);
    ServeOne(NewCache(2), [FIRST], BETWEEN);
    SecondIsHeld("0.062", "frame-63", BETWEEN);
    ServeOne(NewCache(2), [FIRST] + [BETWEEN], AGAIN);
    OldestIsUsed("0.062", "frame-63", "1.000", "frame-1000", AGAIN);
    ServeOne(NewCache(2), [FIRST] + [BETWEEN] + [AGAIN], VANISHED);
    NewestIsLost("1.000", "frame-1000", "0.062", "frame-63", VANISHED);
  }

  /**
    The larger cache still has the first file of the key, the smaller one the second. When the first vanishes
    and cannot be decoded anew, the larger cache holds less.
   */
  lemma ALargerCacheCanHoldLess()
    ensures "0.062" in Serve(NewCache(1), OneKeyTwoFiles()).entries
    ensures "0.062" !in Serve(NewCache(2), OneKeyTwoFiles()).entries
  {
    SmallCacheEnd();
    LargeCacheEnd();
    hide Serve;
  }
}
