/** The two-row edit-distance loop, and why its result is the length of a shortest edit chain. */
module EditDistance {

  function Min(x: nat, y: nat): nat {
    if x <= y then x else y
  }

  function Init<T>(s: seq<T>): seq<T>
    requires s != []
  {
    s[..|s| - 1]
  }

  function Last<T>(s: seq<T>): T
    requires s != []
  {
    s[|s| - 1]
  }

  /** One insertion, deletion or substitution of a single character, anywhere in the string. */
  ghost predicate OneEdit(x: string, y: string) {
    || (exists i, c: char :: 0 <= i <= |x| && y == Inserted(x, i, c))
    || (exists i, c: char :: 0 <= i <= |y| && x == Inserted(y, i, c))
    || (exists i, c: char :: 0 <= i < |x| && y == Substituted(x, i, c))
  }

  function Inserted(x: string, i: nat, c: char): string
    requires i <= |x|
  {
    x[..i] + [c] + x[i..]
  }

  function Substituted(x: string, i: nat, c: char): string
    requires i < |x|
  {
    x[i := c]
  }

  /** A chain of single edits leading from `a` to `b`; it makes |p| - 1 edits. */
  ghost predicate EditChain(p: seq<string>, a: string, b: string) {
    && p != [] && p[0] == a && Last(p) == b
    && forall i, j :: 0 <= i < |p| && 0 <= j < |p| && j == i + 1 ==> OneEdit(p[i], p[j])
  }

  /** `d` edits are enough to turn `a` into `b`, and fewer never are. */
  ghost predicate IsEditDistance(a: string, b: string, d: nat) {
    && (exists p :: EditChain(p, a, b) && |p| == d + 1)
    && (forall p :: EditChain(p, a, b) ==> |p| >= d + 1)
  }

  /** The table the loop fills, row by row. */
  function Lev(a: string, b: string): (d: nat)
    decreases |a| + |b|
  {
    if a == [] then |b|
    else if b == [] then |a|
    else
      Min(Min(Lev(Init(a), b) + 1, Lev(a, Init(b)) + 1),
          Lev(Init(a), Init(b)) + if Last(a) == Last(b) then 0 else 1)
  }

  lemma {:induction false} LevBounds(a: string, b: string)
    ensures |a| - |b| <= Lev(a, b) && |b| - |a| <= Lev(a, b)
    ensures Lev(a, b) <= |a| || Lev(a, b) <= |b|
    decreases |a| + |b|
  {
    if a != [] && b != [] {
      LevBounds(Init(a), b);
      LevBounds(a, Init(b));
      LevBounds(Init(a), Init(b));
    }
  }

  lemma {:induction false} LevZeroIffEqual(a: string, b: string)
    ensures Lev(a, b) == 0 <==> a == b
    decreases |a| + |b|
  {
    if a != [] && b != [] {
      LevZeroIffEqual(Init(a), Init(b));
      assert a == Init(a) + [Last(a)] && b == Init(b) + [Last(b)];
    }
  }

  lemma {:induction false} LevSymmetric(a: string, b: string)
    ensures Lev(a, b) == Lev(b, a)
    decreases |a| + |b|
  {
    if a != [] && b != [] {
      LevSymmetric(Init(a), b);
      LevSymmetric(a, Init(b));
      LevSymmetric(Init(a), Init(b));
    }
  }

  /** Distances obey the triangle inequality. */
  lemma LevAtMost(a: string, b: string)
    ensures a != [] ==> Lev(a, b) <= Lev(Init(a), b) + 1
    ensures b != [] ==> Lev(a, b) <= Lev(a, Init(b)) + 1
    ensures a != [] && b != [] ==> Lev(a, b) <= Lev(Init(a), Init(b)) + if Last(a) == Last(b) then 0 else 1
  {
    LevBounds(a, b);
    if a != [] {
      LevBounds(Init(a), b);
    }
    if b != [] {
      LevBounds(a, Init(b));
    }
  }

  lemma {:induction false} LevTriangle(a: string, b: string, c: string)
    ensures Lev(a, c) <= Lev(a, b) + Lev(b, c)
    decreases |a| + |b| + |c|
  {
    LevBounds(a, b);
    LevBounds(b, c);
    LevBounds(a, c);
    if a != [] && b != [] && c != [] {
      LevCases(a, b);
      LevCases(b, c);
      LevAtMost(a, c);
      hide Lev, Init, Last;
      LevTriangle(Init(a), b, c);
      LevTriangle(a, b, Init(c));
      LevTriangle(a, Init(b), c);
      LevTriangle(a, Init(b), Init(c));
      LevTriangle(Init(a), Init(b), c);
      LevTriangle(Init(a), Init(b), Init(c));
    }
  }

  lemma LevSameLast(x: string, y: string)
    requires x != [] && y != [] && Last(x) == Last(y)
    ensures Lev(x, y) <= Lev(Init(x), Init(y))
  {
  }

  /** A common ending never makes two strings more distant. */
  lemma {:induction false} LevCommonEnding(x: string, y: string, s: string)
    ensures Lev(x + s, y + s) <= Lev(x, y)
  {
    hide Lev;
    if s == [] {
      assert x + s == x && y + s == y;
    } else {
      LevCommonEnding(x, y, Init(s));
      LevSameLast(x + s, y + s);
      assert Init(x + s) == x + Init(s) && Init(y + s) == y + Init(s);
    }
  }

  lemma LastIsOneAway(p: string, c: char, d: char)
    ensures Lev(p, p + [d]) <= 1 && Lev(p + [c], p + [d]) <= 1
  {
    LevZeroIffEqual(p, p);
    assert Init(p + [c]) == p && Init(p + [d]) == p;
  }

  lemma InsertionIsOneAway(x: string, i: nat, c: char)
    requires i <= |x|
    ensures Lev(x, Inserted(x, i, c)) <= 1
  {
    hide Lev;
    var p, s := x[..i], x[i..];
    LastIsOneAway(p, c, c);
    LevCommonEnding(p, p + [c], s);
    assert x == p + s && Inserted(x, i, c) == (p + [c]) + s;
  }

  lemma SubstitutionIsOneAway(x: string, i: nat, c: char)
    requires i < |x|
    ensures Lev(x, Substituted(x, i, c)) <= 1
  {
    hide Lev;
    var p, s := x[..i], x[i + 1..];
    LastIsOneAway(p, x[i], c);
    LevCommonEnding(p + [x[i]], p + [c], s);
    assert x == (p + [x[i]]) + s && Substituted(x, i, c) == (p + [c]) + s;
  }

  lemma OneEditIsOneAway(x: string, y: string)
    requires OneEdit(x, y)
    ensures Lev(x, y) <= 1
  {
    if i, c: char :| 0 <= i <= |x| && y == Inserted(x, i, c) {
      InsertionIsOneAway(x, i, c);
    } else if i, c: char :| 0 <= i <= |y| && x == Inserted(y, i, c) {
      InsertionIsOneAway(y, i, c);
      LevSymmetric(x, y);
    } else {
      var i, c: char :| 0 <= i < |x| && y == Substituted(x, i, c);
      SubstitutionIsOneAway(x, i, c);
    }
  }

  /** No chain of edits is shorter than the distance. */
  lemma {:induction false} NoChainIsShorter(p: seq<string>, a: string, b: string)
    requires EditChain(p, a, b)
    ensures |p| >= Lev(a, b) + 1
  {
    hide OneEdit;
    if |p| == 1 {
      LevZeroIffEqual(a, b);
    } else {
      var q := Init(p);
      assert EditChain(q, a, Last(q));
      NoChainIsShorter(q, a, Last(q));
      assert OneEdit(p[|p| - 2], p[|p| - 1]);
      OneEditIsOneAway(Last(q), b);
      LevTriangle(a, Last(q), b);
    }
  }

  lemma AppendingIsOneEdit(x: string, c: char)
    ensures OneEdit(x, x + [c]) && OneEdit(x + [c], x)
  {
    assert Inserted(x, |x|, c) == x + [c];
  }

  lemma ReplacingLastIsOneEdit(x: string, c: char, d: char)
    ensures OneEdit(x + [c], x + [d])
  {
    assert x + [d] == Substituted(x + [c], |x|, d);
  }

  lemma EditBeforeEnding(x: string, i: nat, d: char, c: char)
    ensures i <= |x| ==> Inserted(x + [c], i, d) == Inserted(x, i, d) + [c]
    ensures i < |x| ==> Substituted(x + [c], i, d) == Substituted(x, i, d) + [c]
  {
  }

  lemma OneEditBeforeEnding(x: string, y: string, c: char)
    requires OneEdit(x, y)
    ensures OneEdit(x + [c], y + [c])
  {
    hide Inserted, Substituted;
    if i, d: char :| 0 <= i <= |x| && y == Inserted(x, i, d) {
      EditBeforeEnding(x, i, d, c);
    } else if i, d: char :| 0 <= i <= |y| && x == Inserted(y, i, d) {
      EditBeforeEnding(y, i, d, c);
    } else {
      var i, d: char :| 0 <= i < |x| && y == Substituted(x, i, d);
      EditBeforeEnding(x, i, d, c);
    }
  }

  lemma ExtendChain(p: seq<string>, a: string, b: string, y: string)
    requires EditChain(p, a, b) && OneEdit(b, y)
    ensures EditChain(p + [y], a, y)
  {
  }

  lemma PrependChain(x: string, p: seq<string>, a: string, b: string)
    requires EditChain(p, a, b) && OneEdit(x, a)
    ensures EditChain([x] + p, x, b)
  {
  }

  function WithEnding(p: seq<string>, c: char): seq<string> {
    seq(|p|, i requires 0 <= i < |p| => p[i] + [c])
  }

  lemma ChainBeforeEnding(p: seq<string>, a: string, b: string, c: char)
    requires EditChain(p, a, b)
    ensures EditChain(WithEnding(p, c), a + [c], b + [c])
  {
    hide OneEdit;
    var q := WithEnding(p, c);
    forall i, j | 0 <= i < |q| && 0 <= j < |q| && j == i + 1 ensures OneEdit(q[i], q[j]) {
      assert OneEdit(p[i], p[j]);
      OneEditBeforeEnding(p[i], p[j], c);
    }
  }

  lemma InsertLast(p: seq<string>, a: string, b: string)
    requires b != [] && EditChain(p, a, Init(b))
    ensures EditChain(p + [b], a, b)
  {
    hide EditChain, OneEdit;
    AppendingIsOneEdit(Init(b), Last(b));
    assert b == Init(b) + [Last(b)];
    ExtendChain(p, a, Init(b), b);
  }

  lemma DeleteLast(p: seq<string>, a: string, b: string)
    requires a != [] && EditChain(p, Init(a), b)
    ensures EditChain([a] + p, a, b)
  {
    hide EditChain, OneEdit;
    AppendingIsOneEdit(Init(a), Last(a));
    assert a == Init(a) + [Last(a)];
    PrependChain(a, p, Init(a), b);
  }

  lemma CarryLast(p: seq<string>, a: string, b: string)
    requires a != [] && b != [] && EditChain(p, Init(a), Init(b))
    ensures EditChain(WithEnding(p, Last(a)), a, Init(b) + [Last(a)])
    ensures EditChain(WithEnding(p, Last(a)) + [b], a, b)
  {
    hide EditChain, OneEdit;
    assert a == Init(a) + [Last(a)] && b == Init(b) + [Last(b)];
    ChainBeforeEnding(p, Init(a), Init(b), Last(a));
    ReplacingLastIsOneEdit(Init(b), Last(a), Last(b));
    ExtendChain(WithEnding(p, Last(a)), a, Init(b) + [Last(a)], b);
  }

  /** A chain of exactly as many edits as the distance says. */
  lemma {:induction false} ShortestChain(a: string, b: string) returns (p: seq<string>)
    ensures EditChain(p, a, b) && |p| == Lev(a, b) + 1
    decreases |a| + |b|
  {
    hide EditChain, Lev;
    LevCases(a, b);
    if a == [] && b == [] {
      p := [a];
      assert EditChain(p, a, b) by { SelfChain(a); }
    } else if b != [] && Lev(a, b) == Lev(a, Init(b)) + 1 {
      p := ShortestChain(a, Init(b));
      InsertLast(p, a, b);
      p := p + [b];
    } else if a != [] && Lev(a, b) == Lev(Init(a), b) + 1 {
      p := ShortestChain(Init(a), b);
      DeleteLast(p, a, b);
      p := [a] + p;
    } else {
      p := ShortestChain(Init(a), Init(b));
      CarryLast(p, a, b);
      assert b == Init(b) + [Last(b)];
      p := WithEnding(p, Last(a));
      if Last(a) != Last(b) {
        p := p + [b];
      }
    }
  }

  lemma SelfChain(a: string)
    ensures EditChain([a], a, a)
  {
  }

  lemma LevCases(a: string, b: string)
    ensures a == [] && b == [] ==> Lev(a, b) == 0
    ensures a == [] && b != [] ==> Lev(a, b) == Lev(a, Init(b)) + 1
    ensures a != [] && b == [] ==> Lev(a, b) == Lev(Init(a), b) + 1
    ensures a != [] && b != [] ==>
      || Lev(a, b) == Lev(a, Init(b)) + 1
      || Lev(a, b) == Lev(Init(a), b) + 1
      || Lev(a, b) == Lev(Init(a), Init(b)) + if Last(a) == Last(b) then 0 else 1
  {
  }

  lemma LevIsEditDistance(a: string, b: string)
    ensures IsEditDistance(a, b, Lev(a, b))
  {
    hide EditChain;
    var p := ShortestChain(a, b);
    forall q | EditChain(q, a, b) ensures |q| >= Lev(a, b) + 1 {
      NoChainIsShorter(q, a, b);
    }
  }

  /** Edit distance, defined by chains alone, is a metric within the length bounds. */
  lemma EditDistanceIsAMetric(a: string, b: string, c: string, ab: nat, ba: nat, bc: nat, ac: nat)
    requires IsEditDistance(a, b, ab) && IsEditDistance(b, a, ba)
    requires IsEditDistance(b, c, bc) && IsEditDistance(a, c, ac)
    ensures ab == 0 <==> a == b
    ensures ab == ba
    ensures ac <= ab + bc
    ensures |a| - |b| <= ab && |b| - |a| <= ab
    ensures ab <= |a| || ab <= |b|
  {
    DistanceIsUnique(a, b, ab);
    DistanceIsUnique(b, a, ba);
    DistanceIsUnique(b, c, bc);
    DistanceIsUnique(a, c, ac);
    LevZeroIffEqual(a, b);
    LevSymmetric(a, b);
    LevTriangle(a, b, c);
    LevBounds(a, b);
  }

  lemma DistanceIsUnique(a: string, b: string, d: nat)
    requires IsEditDistance(a, b, d)
    ensures d == Lev(a, b)
  {
    hide EditChain;
    LevIsEditDistance(a, b);
  }

  lemma LevOfPrefixes(a: string, b: string, i: nat, j: nat)
    requires 0 < i <= |a| && 0 < j <= |b|
    ensures Lev(a[..i], b[..j])
      == Min(Min(Lev(a[..i - 1], b[..j]) + 1, Lev(a[..i], b[..j - 1]) + 1),
             Lev(a[..i - 1], b[..j - 1]) + if a[i - 1] == b[j - 1] then 0 else 1)
  {
    hide Min;
    var x, y := a[..i], b[..j];
    assert Init(x) == a[..i - 1] && Init(y) == b[..j - 1];
    assert Last(x) == a[i - 1] && Last(y) == b[j - 1];
  }

  /** `row` holds the distances from `a` to the first n prefixes of `b`. */
  ghost predicate IsRow(row: seq<nat>, a: string, b: string, n: nat) {
    n <= |row| && n <= |b| + 1 && forall j :: 0 <= j < n ==> row[j] == Lev(a, b[..j])
  }

  /** Entry j of the row below `above`, given entry j - 1. */
  lemma NextEntry(a: string, b: string, i: nat, j: nat, above: seq<nat>, row: seq<nat>)
    requires 0 < i <= |a| && 0 < j <= |b|
    requires IsRow(above, a[..i - 1], b, |b| + 1) && IsRow(row, a[..i], b, j) && |row| == |b| + 1
    ensures IsRow(row[j := Min(Min(above[j] + 1, row[j - 1] + 1),
                               above[j - 1] + if a[i - 1] == b[j - 1] then 0 else 1)], a[..i], b, j + 1)
  {
    hide Lev, Min;
    LevOfPrefixes(a, b, i, j);
  }

  lemma FirstRow(a: string, b: string, row: seq<nat>)
    requires |row| == |b| + 1 && forall j :: 0 <= j < |row| ==> row[j] == j
    ensures IsRow(row, a[..0], b, |b| + 1)
  {
    assert a[..0] == [];
  }

  lemma RowStarts(a: string, b: string, i: nat, row: seq<nat>)
    requires 0 < i <= |a| && |row| == |b| + 1 && row[0] == i
    ensures IsRow(row, a[..i], b, 1)
  {
    assert b[..0] == [];
  }

  lemma LastEntry(a: string, b: string, row: seq<nat>)
    requires |row| == |b| + 1 && IsRow(row, a[..|a|], b, |b| + 1)
    ensures IsEditDistance(a, b, row[|b|])
  {
    assert a[..|a|] == a && b[..|b|] == b;
    LevIsEditDistance(a, b);
    hide IsEditDistance, Lev;
  }

  method Levenshtein(a: string, b: string) returns (d: nat)
    ensures IsEditDistance(a, b, d)
  {
    var m, n := |a|, |b|;
    var prev := new nat[n + 1](j => j);
    var curr := new nat[n + 1](j => 0);
    FirstRow(a, b, prev[..]);
    hide *;
    for i := 1 to m + 1
      invariant prev.Length == curr.Length == n + 1 && prev != curr
      invariant fresh(prev) && fresh(curr)
      invariant IsRow(prev[..], a[..i - 1], b, n + 1)
    {
      curr[0] := i;
      RowStarts(a, b, i, curr[..]);
      for j := 1 to n + 1
        invariant IsRow(prev[..], a[..i - 1], b, n + 1)
        invariant IsRow(curr[..], a[..i], b, j)
      {
        var cost := if a[i - 1] == b[j - 1] then 0 else 1;
        NextEntry(a, b, i, j, prev[..], curr[..]);
        ghost var row := curr[..];
        curr[j] := Min(Min(prev[j] + 1, curr[j - 1] + 1), prev[j - 1] + cost);
        assert curr[..] == row[j := curr[j]];
      }
      prev, curr := curr, prev;
    }
    LastEntry(a, b, prev[..]);
    return prev[n];
  }
}
