/** Duplicate-free sequences: their size as sets, and removing one entry. */
module Sequences {

  function SeqSet<T>(s: seq<T>): set<T> {
    set x | x in s
  }

  predicate Distinct<T(==)>(s: seq<T>) {
    forall i, j :: 0 <= i < j < |s| ==> s[i] != s[j]
  }

  lemma {:induction false} DistinctCardinality<T>(s: seq<T>)
    requires Distinct(s)
    ensures |SeqSet(s)| == |s|
  {
    if s != [] {
      var t := s[..|s| - 1];
      DistinctCardinality(t);
      var last := s[|s| - 1];
      assert s == t + [last];
      assert SeqSet(s) == SeqSet(t) + {last};
      assert last !in SeqSet(t);
    }
  }

  lemma SubsetCardinality<T>(a: set<T>, b: set<T>)
    requires a <= b
    ensures |a| <= |b|
    ensures a != b ==> |a| < |b|
  {
    assert b == a + (b - a);
    assert |b| == |a| + |b - a|;
  }

  lemma DistinctWithin<T>(s: seq<T>, pool: set<T>)
    requires Distinct(s) && forall x :: x in s ==> x in pool
    ensures |s| <= |pool|
  {
    DistinctCardinality(s);
    SubsetCardinality(SeqSet(s), pool);
  }

  /** A set of numbers with perhaps one more. */
  lemma OneLarger(s: set<nat>, t: set<nat>, n: nat, added: bool)
    requires n !in s && (forall i :: i in t <==> i in s || (added && i == n))
    ensures |t| == |s| + if added then 1 else 0
  {
    assert t == if added then s + {n} else s;
  }

  /** The first place of `x`; |s| when it is absent. */
  function Position<T(==)>(s: seq<T>, x: T): (i: nat)
    ensures i <= |s|
    ensures i < |s| ==> s[i] == x
    ensures forall j :: 0 <= j < i ==> s[j] != x
  {
    if s == [] || s[0] == x then 0 else 1 + Position(s[1..], x)
  }

  /** `s` with its first `x` taken out. */
  function Removed<T(==)>(s: seq<T>, x: T): seq<T> {
    var i := Position(s, x);
    if i < |s| then s[..i] + s[i + 1..] else s
  }

  lemma RemovedKeepsRest<T>(s: seq<T>, x: T)
    requires Distinct(s)
    ensures Distinct(Removed(s, x))
    ensures forall y :: y in Removed(s, x) <==> y in s && y != x
    ensures |Removed(s, x)| == |s| - if x in s then 1 else 0
  {
  }

  lemma AppendedIsDistinct<T>(s: seq<T>, x: T)
    requires Distinct(s) && x !in s
    ensures Distinct(s + [x])
  {
  }

  lemma RemovedAt<T>(s: seq<T>, x: T, k: nat)
    requires k < |Removed(s, x)|
    ensures Removed(s, x)[k] == s[if k < Position(s, x) then k else k + 1]
  {
    var i := Position(s, x);
    hide Position;
    if i < |s| {
      assert k >= i ==> s[i + 1..][k - i] == s[k + 1];
    }
  }

  lemma RemovedLength<T>(s: seq<T>, x: T)
    ensures |Removed(s, x)| == |s| - if x in s then 1 else 0
  {
  }

  lemma AbsentStays<T>(s: seq<T>, x: T)
    requires x !in s
    ensures Removed(s, x) == s
  {
  }

  lemma {:induction false} PositionInConcat<T>(a: seq<T>, b: seq<T>, x: T)
    ensures Position(a + b, x) == if x in a then Position(a, x) else |a| + Position(b, x)
  {
    if a == [] {
      assert a + b == b;
    } else {
      assert (a + b)[1..] == a[1..] + b;
      PositionInConcat(a[1..], b, x);
    }
  }

  lemma CutConcat<T>(a: seq<T>, b: seq<T>, i: nat)
    ensures i < |a| ==> (a + b)[..i] + (a + b)[i + 1..] == a[..i] + a[i + 1..] + b
    ensures i < |b| ==> (a + b)[..|a| + i] + (a + b)[|a| + i + 1..] == a + (b[..i] + b[i + 1..])
  {
    if i < |a| {
      assert (a + b)[..i] == a[..i] && (a + b)[i + 1..] == a[i + 1..] + b;
    }
    if i < |b| {
      assert (a + b)[..|a| + i] == a + b[..i] && (a + b)[|a| + i + 1..] == b[i + 1..];
    }
  }

  lemma RemovedIs<T>(s: seq<T>, x: T)
    requires x in s
    ensures Position(s, x) < |s| && Removed(s, x) == s[..Position(s, x)] + s[Position(s, x) + 1..]
  {
  }

  lemma RemovedFromConcat<T>(a: seq<T>, b: seq<T>, x: T)
    ensures x in a ==> Removed(a + b, x) == Removed(a, x) + b
    ensures x !in a ==> Removed(a + b, x) == a + Removed(b, x)
  {
    hide *;
    PositionInConcat(a, b, x);
    if x in a {
      RemovedIs(a, x);
      RemovedIs(a + b, x);
      CutConcat(a, b, Position(a, x));
    } else if x in b {
      RemovedIs(b, x);
      RemovedIs(a + b, x);
      CutConcat(a, b, Position(b, x));
    } else {
      AbsentStays(a + b, x);
      AbsentStays(b, x);
    }
  }

  lemma Associates<T>(a: seq<T>, b: seq<T>, c: seq<T>)
    ensures a + (b + c) == a + b + c
  {
  }
}
