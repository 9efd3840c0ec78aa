/** Mapping times between a source and its proxy through their measured keyframes. */
module Proxy {
  import opened Wrappers

  /** f64::EPSILON, two to the minus 52. */
  function Epsilon(): (e: real)
    ensures e > 0.0
  {
    1.0 / 4503599627370496.0
  }

  datatype ProxyIndex = ProxyIndex(source: seq<real>, proxy: seq<real>)

  datatype SeekTarget = SeekTarget(proxySecs: real, originalSecs: real, residualSecs: real)

  function Abs(x: real): real {
    if x < 0.0 then -x else x
  }

  predicate Increasing(xs: seq<real>) {
    forall i, j :: 0 <= i < j < |xs| ==> xs[i] < xs[j]
  }

  /** Neighbours are at least the comparison tolerance apart. */
  predicate Gapped(xs: seq<real>) {
    forall i, j :: 0 <= i < |xs| && 0 <= j < |xs| && j == i + 1 ==> xs[j] - xs[i] >= Epsilon()
  }

  /** The tolerance is the 52nd power of one half. */
  lemma GappedInNumbers(xs: seq<real>)
    ensures Gapped(xs) <==>
      forall j :: 0 < j < |xs| ==> (xs[j] - xs[j - 1]) * 4503599627370496.0 >= 1.0
  {
    if Gapped(xs) {
      forall j | 0 < j < |xs| ensures (xs[j] - xs[j - 1]) * 4503599627370496.0 >= 1.0 {
        assert xs[j] - xs[j - 1] >= Epsilon();
      }
    }
  }

  lemma {:induction false} GappedFrom(xs: seq<real>, i: nat, j: nat)
    requires Gapped(xs) && i < j < |xs|
    ensures xs[j] - xs[i] >= Epsilon()
  {
    if i + 1 < j {
      GappedFrom(xs, i, j - 1);
    }
    assert xs[j] - xs[j - 1] >= Epsilon();
  }

  lemma GappedIsIncreasing(xs: seq<real>)
    requires Gapped(xs)
    ensures Increasing(xs)
  {
    forall i, j | 0 <= i < j < |xs| ensures xs[i] < xs[j] {
      GappedFrom(xs, i, j);
    }
  }

  /** How many leading times are at or before `t`. */
  function PartitionPoint(xs: seq<real>, t: real): (i: nat)
    ensures i <= |xs|
    ensures forall j :: 0 <= j < i ==> xs[j] <= t
    ensures i < |xs| ==> t < xs[i]
  {
    if xs == [] || t < xs[0] then 0 else 1 + PartitionPoint(xs[1..], t)
  }

  lemma PartitionPointIs(xs: seq<real>, t: real, i: nat)
    requires Increasing(xs) && i <= |xs|
    requires i > 0 ==> xs[i - 1] <= t
    requires i < |xs| ==> t < xs[i]
    ensures PartitionPoint(xs, t) == i
  {
  }

  function NextOr(xs: seq<real>, i: nat, fallback: real): real {
    if i < |xs| then xs[i] else fallback
  }

  /** Index of the left end of the segment used after the last keyframe; past the end for one keyframe. */
  function TailStart(n: nat): nat
    requires n > 0
  {
    n - if n - 1 < 2 then n - 1 else 2
  }

  function Slope(a: real, b: real, pa: real, pb: real): real
    requires a != b
  {
    (pb - pa) / (b - a)
  }

  /** The point above `t` on the line of this slope through (a, pa). */
  function Along(a: real, pa: real, slope: real, t: real): real {
    pa + slope * (t - a)
  }

  function Between(a: real, b: real, pa: real, pb: real, t: real): real
    requires a != b
  {
    pa + (pb - pa) * (t - a) / (b - a)
  }

  /** The piecewise-linear map; None stands for an index out of range, where the program stops. */
  function Map(t: real, from: seq<real>, to: seq<real>): Option<real>
    requires Increasing(from)
  {
    if from == [] || to == [] then Some(t)
    else
      var i := PartitionPoint(from, t);
      if i == 0 then
        var (a, b) := (from[0], NextOr(from, 1, from[0] + 1.0));
        var (pa, pb) := (to[0], NextOr(to, 1, to[0] + 1.0));
        Some(Along(a, pa, Slope(a, b, pa, pb), t))
      else if i >= |from| then
        var s := TailStart(|from|);
        if s >= |from| || s >= |to| || |from| - 1 >= |to| then None
        else
          var (a, b, pa, pb) := (from[s], from[|from| - 1], to[s], to[|from| - 1]);
          var slope := if Abs(b - a) < Epsilon() then 1.0 else Slope(a, b, pa, pb);
          Some(Along(a, pa, slope, t))
      else if i - 1 >= |to| then None
      else
        var (a, b, pa, pb) := (from[i - 1], from[i], to[i - 1], NextOr(to, i, to[i - 1]));
        if Abs(b - a) < Epsilon() then Some(pa)
        else Some(Between(a, b, pa, pb, t))
  }

  /** What the keyframe probe guarantees of an index, for a source with other than one keyframe. */
  predicate Usable(from: seq<real>, to: seq<real>) {
    Gapped(from) && Gapped(to) && |from| == |to| && |from| != 1
  }

  /** The map as three cases of one straight line. */
  function Line(a: real, b: real, pa: real, pb: real, t: real): real
    requires a < b
  {
    Along(a, pa, Slope(a, b, pa, pb), t)
  }

  /** The segment that serves partition point `i`: its two ends on either timeline. */
  function Segment(xs: seq<real>, i: nat): (real, real)
    requires |xs| >= 2 && i <= |xs|
  {
    if i == 0 then (xs[0], xs[1])
    else if i < |xs| then (xs[i - 1], xs[i])
    else if |xs| == 2 then (xs[1], xs[1] + 1.0)
    else (xs[|xs| - 2], xs[|xs| - 1])
  }

  lemma SegmentRises(xs: seq<real>, i: nat)
    requires |xs| >= 2 && i <= |xs| && Gapped(xs)
    ensures Segment(xs, i).0 < Segment(xs, i).1
  {
  }

  lemma MiddleIsLine(a: real, b: real, pa: real, pb: real, t: real)
    requires a < b
    ensures Between(a, b, pa, pb, t) == Line(a, b, pa, pb, t)
  {
    var w, d, x := b - a, pb - pa, t - a;
    Quotient(d, w);
    Quotient(d * x, w);
    assert (d / w * x) * w == d * x;
    SameFactor(w, d * x / w, d / w * x);
  }

  lemma Quotient(x: real, y: real)
    requires y != 0.0
    ensures x / y * y == x
  {
  }

  lemma SameFactor(w: real, x: real, y: real)
    requires w != 0.0 && x * w == y * w
    ensures x == y
  {
    assert (x - y) * w == 0.0;
  }

  lemma MapIsLine(t: real, from: seq<real>, to: seq<real>)
    requires Usable(from, to) && from != []
    ensures Increasing(from)
    ensures var i := PartitionPoint(from, t);
      && Segment(from, i).0 < Segment(from, i).1
      && Map(t, from, to)
        == Some(Line(Segment(from, i).0, Segment(from, i).1, Segment(to, i).0, Segment(to, i).1, t))
  {
    GappedIsIncreasing(from);
    var i := PartitionPoint(from, t);
    SegmentRises(from, i);
    hide Along, Slope, Between, Line, Increasing, Epsilon;
    if i == 0 {
      HeadIsLine(t, from, to);
    } else if i == |from| {
      TailIsLine(t, from, to);
    } else {
      assert from[i] - from[i - 1] >= Epsilon();
      MiddleIsLine(from[i - 1], from[i], to[i - 1], to[i], t);
    }
  }

  lemma HeadIsLine(t: real, from: seq<real>, to: seq<real>)
    requires Usable(from, to) && from != [] && Increasing(from) && PartitionPoint(from, t) == 0
    ensures Map(t, from, to) == Some(Line(from[0], from[1], to[0], to[1], t))
  {
  }

  lemma TailIsLine(t: real, from: seq<real>, to: seq<real>)
    requires Usable(from, to) && from != [] && Increasing(from) && PartitionPoint(from, t) == |from|
    ensures var ((a, b), (pa, pb)) := (Segment(from, |from|), Segment(to, |from|));
      a < b && Map(t, from, to) == Some(Line(a, b, pa, pb, t))
  {
    var n := |from|;
    UnitSlope(from[n - 1], to[n - 1]);
    hide Along, Slope, Epsilon;
    if n > 2 {
      assert from[n - 1] - from[n - 2] >= Epsilon();
    }
  }

  /** A line over two unit steps has slope one. */
  lemma UnitSlope(a: real, pa: real)
    ensures Slope(a, a + 1.0, pa, pa + 1.0) == 1.0
  {
  }

  lemma Product(x: real, y: real)
    requires x > 0.0
    ensures y > 0.0 <==> x * y > 0.0
    ensures y == 0.0 <==> x * y == 0.0
  {
  }

  lemma LineSlope(a: real, b: real, pa: real, pb: real)
    requires a < b && pa < pb
    ensures Slope(a, b, pa, pb) > 0.0
    ensures Slope(a, b, pa, pb) * (b - a) == pb - pa
    ensures Line(a, b, pa, pb, a) == pa && Line(a, b, pa, pb, b) == pb
  {
    var s := Slope(a, b, pa, pb);
    Quotient(pb - pa, b - a);
    Product(b - a, s);
    assert (b - a) * s == s * (b - a) == pb - pa;
    AlongEnds(a, pa, s, b, pb);
  }

  lemma AlongEnds(a: real, pa: real, s: real, b: real, pb: real)
    requires s * (b - a) == pb - pa
    ensures Along(a, pa, s, a) == pa && Along(a, pa, s, b) == pb
  {
    assert s * (a - a) == 0.0;
    assert Along(a, pa, s, b) == pa + s * (b - a);
  }

  lemma LineRises(a: real, b: real, pa: real, pb: real, t: real, u: real)
    requires a < b && pa < pb && t < u
    ensures Line(a, b, pa, pb, t) < Line(a, b, pa, pb, u)
  {
    LineSlope(a, b, pa, pb);
    AlongRises(a, pa, Slope(a, b, pa, pb), t, u);
  }

  lemma AlongRises(a: real, pa: real, s: real, t: real, u: real)
    requires s > 0.0 && t < u
    ensures Along(a, pa, s, t) < Along(a, pa, s, u)
  {
    var d := u - t;
    Product(s, d);
    assert u - a == (t - a) + d;
    Distribute(s, t - a, d);
  }

  lemma Distribute(s: real, x: real, y: real)
    ensures s * (x + y) == s * x + s * y
  {
  }

  lemma LineUndone(a: real, b: real, pa: real, pb: real, t: real)
    requires a < b && pa < pb
    ensures Line(pa, pb, a, b, Line(a, b, pa, pb, t)) == t
  {
    LineSlope(a, b, pa, pb);
    LineSlope(pa, pb, a, b);
    hide Slope;
    var s, r, w := Slope(a, b, pa, pb), Slope(pa, pb, a, b), b - a;
    Reassociate(r, s, w, pb - pa);
    SameFactor(w, r * s, 1.0);
    Reassociate(r, s, t - a, s * (t - a));
  }

  lemma Reassociate(r: real, s: real, w: real, d: real)
    requires s * w == d
    ensures r * s * w == r * d
  {
    assert r * s * w == r * (s * w);
  }

  /** The image of a time lies between the images of the keyframes around it. */
  lemma MapStaysInSegment(t: real, from: seq<real>, to: seq<real>)
    requires Usable(from, to) && from != []
    ensures Increasing(from) && Increasing(to)
    ensures Map(t, from, to).Some?
    ensures PartitionPoint(to, Map(t, from, to).value) == PartitionPoint(from, t)
  {
    MapIsLine(t, from, to);
    GappedIsIncreasing(to);
    var i := PartitionPoint(from, t);
    SegmentRises(to, i);
    var ((a, b), (pa, pb)) := (Segment(from, i), Segment(to, i));
    LineSlope(a, b, pa, pb);
    LineEnds(a, b, pa, pb, t);
    PartitionPointIs(to, Line(a, b, pa, pb, t), i);
  }

  lemma LineEnds(a: real, b: real, pa: real, pb: real, t: real)
    requires a < b && pa < pb
    ensures t < a <==> Line(a, b, pa, pb, t) < pa
    ensures t < b <==> Line(a, b, pa, pb, t) < pb
  {
    LineSlope(a, b, pa, pb);
    if t < a { LineRises(a, b, pa, pb, t, a); }
    if a < t { LineRises(a, b, pa, pb, a, t); }
    if t < b { LineRises(a, b, pa, pb, t, b); }
    if b < t { LineRises(a, b, pa, pb, b, t); }
  }

  /** Mapping there and back is the identity, for every time on either side. */
  lemma MapsAreInverse(t: real, from: seq<real>, to: seq<real>)
    requires Usable(from, to)
    ensures Increasing(from) && Increasing(to)
    ensures Map(t, from, to).Some?
    ensures Map(Map(t, from, to).value, to, from) == Some(t)
  {
    GappedIsIncreasing(from);
    GappedIsIncreasing(to);
    if from != [] {
      MapIsLine(t, from, to);
      MapStaysInSegment(t, from, to);
      var u, i := Map(t, from, to).value, PartitionPoint(from, t);
      MapIsLine(u, to, from);
      hide Line, Map, Segment, PartitionPoint;
      LineUndone(Segment(from, i).0, Segment(from, i).1, Segment(to, i).0, Segment(to, i).1, t);
    }
  }

  /** Later times map to later times. */
  lemma MapIncreases(t: real, u: real, from: seq<real>, to: seq<real>)
    requires Usable(from, to) && t < u
    ensures Increasing(from)
    ensures Map(t, from, to).Some? && Map(u, from, to).Some?
    ensures Map(t, from, to).value < Map(u, from, to).value
  {
    GappedIsIncreasing(from);
    if from != [] {
      MapStaysInSegment(t, from, to);
      MapStaysInSegment(u, from, to);
      MapIsLine(t, from, to);
      MapIsLine(u, from, to);
      hide Line, Map;
      var i, j := PartitionPoint(from, t), PartitionPoint(from, u);
      if i == j {
        SegmentRises(to, i);
        LineRises(Segment(from, i).0, Segment(from, i).1, Segment(to, i).0, Segment(to, i).1, t, u);
      } else {
        assert i < j;
        assert Map(t, from, to).value < to[i] <= to[j - 1] <= Map(u, from, to).value;
      }
    }
  }

  /** The point (t, u) is on the line through (a, pa) and (b, pb). */
  predicate OnLine(a: real, b: real, pa: real, pb: real, t: real, u: real) {
    (u - pa) * (b - a) == (pb - pa) * (t - a)
  }

  /**
    Between two keyframes the map is the line through them, before the first one the line of the first two,
    and after the last one that of the last two, if there are more.
   */
  lemma MapInterpolates(t: real, from: seq<real>, to: seq<real>, i: nat)
    requires Usable(from, to) && i + 1 < |from|
    requires i == 0 || from[i] <= t
    requires t < from[i + 1] || (i + 2 == |from| && |from| > 2)
    ensures Increasing(from)
    ensures Map(t, from, to).Some? && OnLine(from[i], from[i + 1], to[i], to[i + 1], t, Map(t, from, to).value)
  {
    hide Map, Along, Slope, OnLine, PartitionPoint, Increasing, Gapped;
    GappedIsIncreasing(from);
    GappedIsIncreasing(to);
    MapIsLine(t, from, to);
    Neighbours(from, i);
    Neighbours(to, i);
    PassesThrough(from[i], from[i + 1], to[i], to[i + 1], t);
    PartitionPointIs(from, t, if t < from[i] then 0 else if t < from[i + 1] then i + 1 else i + 2);
  }

  lemma Neighbours(xs: seq<real>, i: nat)
    requires Increasing(xs) && i + 1 < |xs|
    ensures xs[i] < xs[i + 1]
  {
  }

  /** Every keyframe that has a partner maps to it, whatever the lists' lengths. */
  lemma MapHitsKeyframes(k: nat, from: seq<real>, to: seq<real>)
    requires Gapped(from) && |from| != 1 && k < |from| && k < |to|
    ensures Increasing(from)
    ensures Map(from[k], from, to) == Some(to[k])
  {
    GappedIsIncreasing(from);
    PartitionPointIs(from, from[k], k + 1);
    if k + 1 < |from| {
      assert from[k + 1] - from[k] >= Epsilon();
      BetweenStart(from[k], from[k + 1], to[k], NextOr(to, k + 1, to[k]));
    } else if |from| > 2 {
      assert from[k] - from[k - 1] >= Epsilon();
      Quotient(to[k] - to[k - 1], from[k] - from[k - 1]);
      AlongEnds(from[k - 1], to[k - 1], Slope(from[k - 1], from[k], to[k - 1], to[k]), from[k], to[k]);
    }
  }

  lemma BetweenStart(a: real, b: real, pa: real, pb: real)
    requires a < b
    ensures Between(a, b, pa, pb, a) == pa
  {
    assert (pb - pa) * (a - a) == 0.0;
  }

  /**
    The program stops exactly from the first keyframe on when there is only one, and
    otherwise from the keyframe on that has no partner.
   */
  lemma MapStopsIff(t: real, from: seq<real>, to: seq<real>)
    requires Gapped(from)
    ensures Increasing(from)
    ensures Map(t, from, to).None? <==>
      from != [] && to != [] && PartitionPoint(from, t) > 0 && (|from| == 1 || PartitionPoint(from, t) > |to|)
    ensures |from| == |to| == 1 && t < from[0] ==> Map(t, from, to) == Some(to[0] + (t - from[0]))
  {
    GappedIsIncreasing(from);
    var i := PartitionPoint(from, t);
    hide Slope, Between, Epsilon;
    if |from| == |to| == 1 && t < from[0] {
      UnitSlope(from[0], to[0]);
    } else if 0 < i < |from| {
      assert from[i] - from[i - 1] >= Epsilon();
    }
  }

  /**
    Where the partner of a segment's end is missing: the image stands still after the last partner, and a list of
    one counts as going on at the pace of one a second.
   */
  lemma MapWithoutPartner(t: real, from: seq<real>, to: seq<real>)
    requires Gapped(from) && from != [] && to != []
    ensures Increasing(from)
    ensures |to| < |from| && from[|to| - 1] <= t < from[|to|] ==> Map(t, from, to) == Some(to[|to| - 1])
    ensures |from| > 1 && |to| == 1 && t < from[0] ==>
      Map(t, from, to).Some? && OnLine(from[0], from[1], to[0], to[0] + 1.0, t, Map(t, from, to).value)
    ensures |from| == 1 && |to| > 1 && t < from[0] ==>
      Map(t, from, to).Some? && OnLine(from[0], from[0] + 1.0, to[0], to[1], t, Map(t, from, to).value)
  {
    GappedIsIncreasing(from);
    if |to| < |from| && from[|to| - 1] <= t < from[|to|] {
      PartitionPointIs(from, t, |to|);
      FlatBetween(from[|to| - 1], from[|to|], to[|to| - 1], t);
    } else if t < from[0] {
      PartitionPointIs(from, t, 0);
      var (b, pb) := (NextOr(from, 1, from[0] + 1.0), NextOr(to, 1, to[0] + 1.0));
      PassesThrough(from[0], b, to[0], pb, t);
    }
    hide OnLine, Along, Slope, Between, Increasing, Gapped, PartitionPoint, Epsilon;
  }

  lemma FlatBetween(a: real, b: real, pa: real, t: real)
    requires a < b
    ensures Between(a, b, pa, pa, t) == pa
  {
    assert (pa - pa) * (t - a) == 0.0;
  }

  lemma PassesThrough(a: real, b: real, pa: real, pb: real, t: real)
    requires a < b
    ensures OnLine(a, b, pa, pb, t, Along(a, pa, Slope(a, b, pa, pb), t))
  {
    Quotient(pb - pa, b - a);
    hide Slope;
    var (s, w, x) := (Slope(a, b, pa, pb), b - a, t - a);
    assert s * x * w == s * w * x;
  }

  /** It never stops exactly when there are several keyframes and each has a partner. */
  lemma MapNeverStopsIff(from: seq<real>, to: seq<real>)
    requires Gapped(from) && from != [] && to != []
    ensures Increasing(from)
    ensures (forall t :: Map(t, from, to).Some?) <==> |from| != 1 && |from| <= |to|
  {
    GappedIsIncreasing(from);
    var last := from[|from| - 1];
    PartitionPointIs(from, last, |from|);
    hide Map;
    MapStopsIff(last, from, to);
    forall t ensures |from| != 1 && |from| <= |to| ==> Map(t, from, to).Some? {
      MapStopsIff(t, from, to);
    }
  }

  /** Three source keyframes, two proxy keyframes, and a time after the last. */
  lemma MapStopsOnAShorterList()
    ensures Gapped([0.0, 1.0, 2.0]) && Increasing([0.0, 1.0, 2.0])
    ensures Map(2.5, [0.0, 1.0, 2.0], [0.0, 2.0]).None?
  {
    var from: seq<real> := [0.0, 1.0, 2.0];
    assert Gapped(from);
    GappedIsIncreasing(from);
    PartitionPointIs(from, 2.5, 3);
    MapStopsIff(2.5, from, [0.0, 2.0]);
  }

  /** Partners beyond the last keyframe are never looked at. */
  lemma ExtraPartnersDoNotCount(t: real, from: seq<real>, to: seq<real>)
    requires Increasing(from) && 2 <= |from| <= |to|
    ensures Map(t, from, to) == Map(t, from, to[..|from|])
  {
    hide Slope, Between, Along, Epsilon;
  }

  /** Mapping there and back is defined everywhere and is the identity. */
  ghost predicate RoundTrips(from: seq<real>, to: seq<real>)
    requires Increasing(from) && Increasing(to)
  {
    forall t :: ThereAndBack(t, from, to)
  }

  predicate ThereAndBack(t: real, from: seq<real>, to: seq<real>)
    requires Increasing(from) && Increasing(to)
  {
    Map(t, from, to).Some? && Map(Map(t, from, to).value, to, from) == Some(t)
  }

  /** The maps undo each other exactly on lists of one length other than one, or when a list is empty. */
  lemma RoundTripsIff(from: seq<real>, to: seq<real>)
    requires Gapped(from) && Gapped(to)
    ensures Increasing(from) && Increasing(to)
    ensures RoundTrips(from, to) <==> from == [] || to == [] || (|from| == |to| && |from| != 1)
  {
    GappedIsIncreasing(from);
    GappedIsIncreasing(to);
    if from == [] || to == [] {
      forall t ensures ThereAndBack(t, from, to) {
      }
    } else if |from| == |to| && |from| != 1 {
      forall t ensures ThereAndBack(t, from, to) {
        MapsAreInverse(t, from, to);
      }
    } else {
      var t := NoWayBack(from, to);
    }
  }

  /** With unpaired keyframes some time has no image, or an image with no way back. */
  lemma NoWayBack(from: seq<real>, to: seq<real>) returns (t: real)
    requires Gapped(from) && Gapped(to) && Increasing(from) && Increasing(to) && from != [] && to != []
    requires |from| == 1 || |from| != |to|
    ensures !ThereAndBack(t, from, to)
  {
    hide Map;
    if |from| == 1 || |from| > |to| {
      t := from[|from| - 1];
      PartitionPointIs(from, t, |from|);
      MapStopsIff(t, from, to);
    } else {
      var paired := to[..|from|];
      var u := to[|to| - 1];
      MapsAreInverse(u, paired, from);
      t := Map(u, paired, from).value;
      ExtraPartnersDoNotCount(t, from, to);
      PartitionPointIs(to, u, |to|);
      MapStopsIff(u, to, from);
    }
  }

  lemma SlopeOneIff(a: real, b: real, pa: real, pb: real)
    requires a < b
    ensures Slope(a, b, pa, pb) == 1.0 <==> pb - pa == b - a
  {
    Quotient(pb - pa, b - a);
    if pb - pa == b - a {
      SameFactor(b - a, Slope(a, b, pa, pb), 1.0);
    }
  }

  /** Where the line through the two ends is one unit after the second, and anywhere if its slope is one. */
  lemma LineBeyond(a: real, b: real, pa: real, pb: real, t: real)
    requires a < b && pa < pb
    ensures Line(a, b, pa, pb, b + 1.0) == pb + Slope(a, b, pa, pb)
    ensures Slope(a, b, pa, pb) == 1.0 ==> Line(a, b, pa, pb, t) == pb + (t - b)
  {
    LineSlope(a, b, pa, pb);
    SlopeOneIff(a, b, pa, pb);
    hide Slope;
    var s := Slope(a, b, pa, pb);
    Distribute(s, b - a, 1.0);
    assert b + 1.0 - a == (b - a) + 1.0;
    assert Along(a, pa, 1.0, t) == pa + (t - a);
  }

  /** After two keyframes time goes on at the same pace on either side. */
  lemma TwoKeyframesTail(t: real, from: seq<real>, to: seq<real>)
    requires Usable(from, to) && |from| == 2 && from[1] <= t
    ensures Increasing(from)
    ensures Map(t, from, to) == Some(to[1] + (t - from[1]))
    ensures OnLastSegment(t, from, to) <==> Line(from[0], from[1], to[0], to[1], t) == to[1] + (t - from[1])
  {
    GappedIsIncreasing(from);
    PartitionPointIs(from, t, 2);
    TailIsLine(t, from, to);
    UnitSlope(from[1], to[1]);
    hide Slope, Epsilon;
  }

  /** After the last keyframe the last segment goes on, unless it is the only one and its slope is not one. */
  lemma TailFollowsLastSegmentIff(from: seq<real>, to: seq<real>)
    requires Usable(from, to) && from != []
    ensures Increasing(from)
    ensures (forall t :: t >= from[|from| - 1] ==> OnLastSegment(t, from, to))
      <==> |from| > 2 || to[1] - to[0] == from[1] - from[0]
  {
    GappedIsIncreasing(from);
    GappedIsIncreasing(to);
    var n := |from|;
    if n > 2 {
      forall t | t >= from[n - 1] ensures OnLastSegment(t, from, to) {
        PartitionPointIs(from, t, n);
        TailIsLine(t, from, to);
      }
    } else {
      var a, b, pa, pb := from[0], from[1], to[0], to[1];
      SlopeOneIff(a, b, pa, pb);
      LineBeyond(a, b, pa, pb, b);
      TwoKeyframesTail(b + 1.0, from, to);
      hide Map, Slope, Line, OnLastSegment;
      forall t | t >= b ensures Slope(a, b, pa, pb) == 1.0 ==> OnLastSegment(t, from, to) {
        LineBeyond(a, b, pa, pb, t);
        TwoKeyframesTail(t, from, to);
      }
    }
  }

  predicate OnLastSegment(t: real, from: seq<real>, to: seq<real>)
    requires Increasing(from) && 2 <= |from| == |to|
  {
    var n := |from|;
    Map(t, from, to) == Some(Line(from[n - 2], from[n - 1], to[n - 2], to[n - 1], t))
  }

  function ProxyTimeFor(ix: ProxyIndex, originalSecs: real): Option<real>
    requires Increasing(ix.source)
  {
    Map(originalSecs, ix.source, ix.proxy)
  }

  function OriginalTimeFor(ix: ProxyIndex, proxySecs: real): Option<real>
    requires Increasing(ix.proxy)
  {
    Map(proxySecs, ix.proxy, ix.source)
  }

  /** The two directions are mutually inverse increasing bijections of the time line. */
  lemma TimelinesCorrespond(ix: ProxyIndex, original: real, proxy: real)
    requires Usable(ix.source, ix.proxy)
    ensures Increasing(ix.source) && Increasing(ix.proxy)
    ensures ProxyTimeFor(ix, original).Some? && OriginalTimeFor(ix, proxy).Some?
    ensures ProxyTimeFor(ix, original).value == proxy <==> OriginalTimeFor(ix, proxy).value == original
  {
    MapsAreInverse(original, ix.source, ix.proxy);
    MapsAreInverse(proxy, ix.proxy, ix.source);
  }

  function SeekTargetOf(ix: ProxyIndex, originalSecs: real): Option<SeekTarget> {
    var i := PartitionPoint(ix.source, originalSecs);
    if i == 0 || i - 1 >= |ix.proxy| then None
    else
      var src := ix.source[i - 1];
      Some(SeekTarget(ix.proxy[i - 1], src, Abs(originalSecs - src)))
  }

  function WorstGap(xs: seq<real>): real {
    if |xs| < 2 then 0.0
    else
      var (before, gap) := (WorstGap(xs[..|xs| - 1]), xs[|xs| - 1] - xs[|xs| - 2]);
      if gap > before then gap else before
  }

  lemma {:induction false} WorstGapBounds(xs: seq<real>, j: nat)
    requires 0 < j < |xs|
    ensures xs[j] - xs[j - 1] <= WorstGap(xs)
  {
    if j < |xs| - 1 {
      WorstGapBounds(xs[..|xs| - 1], j);
    }
  }

  lemma {:induction false} WorstGapIsNotNegative(xs: seq<real>)
    ensures WorstGap(xs) >= 0.0
  {
    if |xs| >= 2 {
      WorstGapIsNotNegative(xs[..|xs| - 1]);
    }
  }

  /** The bound is attained: it is the gap before some keyframe, or zero when there is none. */
  lemma {:induction false} WorstGapIsAGap(xs: seq<real>) returns (j: nat)
    requires Increasing(xs)
    ensures |xs| < 2 ==> WorstGap(xs) == 0.0
    ensures |xs| >= 2 ==> 0 < j < |xs| && WorstGap(xs) == xs[j] - xs[j - 1]
  {
    j := 0;
    if |xs| >= 2 {
      j := WorstGapIsAGap(xs[..|xs| - 1]);
      if xs[|xs| - 1] - xs[|xs| - 2] > WorstGap(xs[..|xs| - 1]) {
        j := |xs| - 1;
      }
    }
  }

  /** A seek starts at the last keyframe at or before the time asked for, or is refused before the first. */
  lemma SeekFindsLastKeyframe(ix: ProxyIndex, t: real)
    requires Gapped(ix.source)
    ensures SeekTargetOf(ix, t).None? <==>
      || ix.source == [] || t < ix.source[0]
      || (|ix.proxy| < |ix.source| && ix.source[|ix.proxy|] <= t)
    ensures var target := SeekTargetOf(ix, t); target.Some? ==>
      && target.value.originalSecs in ix.source && target.value.originalSecs <= t
      && (forall k :: k in ix.source && k <= t ==> k <= target.value.originalSecs)
      && target.value.residualSecs == t - target.value.originalSecs
  {
    GappedIsIncreasing(ix.source);
    hide Gapped;
    var i := PartitionPoint(ix.source, t);
    SplitsAt(ix.source, t);
    if ix.source != [] {
      SplitAt(ix.source, t, 0);
    }
    if |ix.proxy| < |ix.source| {
      SplitAt(ix.source, t, |ix.proxy|);
    }
    hide PartitionPoint, Increasing;
  }

  /** In an increasing list place j is before the split exactly when its time is not past t. */
  lemma SplitAt(xs: seq<real>, t: real, j: nat)
    requires Increasing(xs) && j < |xs|
    ensures xs[j] <= t <==> j < PartitionPoint(xs, t)
  {
  }

  lemma SplitsAt(xs: seq<real>, t: real)
    requires Increasing(xs)
    ensures forall k :: k in xs && k <= t ==> PartitionPoint(xs, t) > 0 && k <= xs[PartitionPoint(xs, t) - 1]
    ensures PartitionPoint(xs, t) > 0 ==> xs[PartitionPoint(xs, t) - 1] <= t
  {
    forall k | k in xs && k <= t ensures PartitionPoint(xs, t) > 0 && k <= xs[PartitionPoint(xs, t) - 1] {
      var j :| 0 <= j < |xs| && xs[j] == k;
      SplitAt(xs, t, j);
    }
  }

  /** Its proxy time is the image of that keyframe and, where the times correspond, not past the image of the time. */
  lemma SeekAgreesWithMap(ix: ProxyIndex, t: real)
    requires Gapped(ix.source) && |ix.source| != 1 && SeekTargetOf(ix, t).Some?
    ensures Increasing(ix.source)
    ensures ProxyTimeFor(ix, SeekTargetOf(ix, t).value.originalSecs) == Some(SeekTargetOf(ix, t).value.proxySecs)
    ensures Usable(ix.source, ix.proxy) ==>
      ProxyTimeFor(ix, t).Some? && SeekTargetOf(ix, t).value.proxySecs <= ProxyTimeFor(ix, t).value
  {
    GappedIsIncreasing(ix.source);
    var i := PartitionPoint(ix.source, t);
    MapHitsKeyframes(i - 1, ix.source, ix.proxy);
    hide Map;
    if Usable(ix.source, ix.proxy) && ix.source[i - 1] < t {
      MapIncreases(ix.source[i - 1], t, ix.source, ix.proxy);
    }
  }

  /** Up to the last keyframe, a seek lands within the worst gap of the time asked for. */
  lemma SeekResidualIsBounded(ix: ProxyIndex, t: real)
    requires Gapped(ix.source) && SeekTargetOf(ix, t).Some?
    requires t <= ix.source[|ix.source| - 1]
    ensures SeekTargetOf(ix, t).value.residualSecs <= WorstGap(ix.source)
  {
    var i := PartitionPoint(ix.source, t);
    if i < |ix.source| {
      WorstGapBounds(ix.source, i);
    } else {
      WorstGapIsNotNegative(ix.source);
    }
  }

  // How the keyframe lists are made.

  function InsertTime(xs: seq<real>, x: real): (r: seq<real>)
    ensures multiset(r) == multiset(xs) + multiset{x}
  {
    if xs == [] || xs[|xs| - 1] <= x then xs + [x]
    else
      assert xs == xs[..|xs| - 1] + [xs[|xs| - 1]];
      InsertTime(xs[..|xs| - 1], x) + [xs[|xs| - 1]]
  }

  function SortTimes(xs: seq<real>): (r: seq<real>)
    ensures multiset(r) == multiset(xs)
  {
    if xs == [] then []
    else
      assert xs == xs[..|xs| - 1] + [xs[|xs| - 1]];
      InsertTime(SortTimes(xs[..|xs| - 1]), xs[|xs| - 1])
  }

  predicate Ascending(xs: seq<real>) {
    forall i, j :: 0 <= i < j < |xs| ==> xs[i] <= xs[j]
  }

  lemma {:induction false} InsertKeepsAscending(xs: seq<real>, x: real)
    requires Ascending(xs)
    ensures Ascending(InsertTime(xs, x))
  {
    if xs != [] && x < xs[|xs| - 1] {
      var init, last := xs[..|xs| - 1], xs[|xs| - 1];
      InsertKeepsAscending(init, x);
      InsertedAreBelow(init, x, last);
    }
  }

  lemma InsertedAreBelow(xs: seq<real>, x: real, last: real)
    requires x <= last && forall i :: 0 <= i < |xs| ==> xs[i] <= last
    ensures forall i :: 0 <= i < |InsertTime(xs, x)| ==> InsertTime(xs, x)[i] <= last
  {
    var r := InsertTime(xs, x);
    forall i | 0 <= i < |r| ensures r[i] <= last {
      assert r[i] in multiset(xs) + multiset{x};
    }
  }

  lemma {:induction false} SortAscends(xs: seq<real>)
    ensures Ascending(SortTimes(xs))
  {
    if xs != [] {
      SortAscends(xs[..|xs| - 1]);
      InsertKeepsAscending(SortTimes(xs[..|xs| - 1]), xs[|xs| - 1]);
    }
  }

  /** `x` is at `k`, or above it by less than the tolerance. */
  predicate JustAbove(k: real, x: real) {
    k <= x < k + Epsilon()
  }

  /** `kept` stands for `times`: it is part of them, and each of them lies just above one of it. */
  ghost predicate Represents(kept: seq<real>, times: seq<real>) {
    && (forall x :: x in kept ==> x in times)
    && (forall x :: x in times ==> exists k :: k in kept && JustAbove(k, x))
  }

  lemma RepresentsOneMore(kept: seq<real>, times: seq<real>, x: real, keep: bool)
    requires Represents(kept, times)
    requires keep || (kept != [] && JustAbove(kept[|kept| - 1], x))
    ensures Represents(if keep then kept + [x] else kept, times + [x])
  {
    assert JustAbove(x, x);
    hide JustAbove;
    var r := if keep then kept + [x] else kept;
    forall y | y in r ensures y in times + [x] {
      assert y in kept || y == x;
    }
    forall y | y in times + [x] ensures exists k :: k in r && JustAbove(k, y) {
      if y in times {
        var k :| k in kept && JustAbove(k, y);
        assert k in r;
      } else {
        assert r[|r| - 1] in r && JustAbove(r[|r| - 1], y);
      }
    }
  }

  predicate Keeps(kept: seq<real>, x: real) {
    kept == [] || !(Abs(x - kept[|kept| - 1]) < Epsilon())
  }

  lemma Verdict(kept: seq<real>, x: real)
    requires kept != [] ==> kept[|kept| - 1] <= x
    ensures Keeps(kept, x) && kept != [] ==> x - kept[|kept| - 1] >= Epsilon()
    ensures !Keeps(kept, x) ==> kept != [] && JustAbove(kept[|kept| - 1], x)
  {
  }

  lemma KeepGapped(kept: seq<real>, x: real)
    requires Gapped(kept) && (kept != [] ==> x - kept[|kept| - 1] >= Epsilon())
    ensures Gapped(kept + [x])
  {
  }

  /** What the deduplication has achieved after the first i times. */
  ghost predicate Deduped(kept: seq<real>, sorted: seq<real>, i: nat) {
    && i <= |sorted|
    && Gapped(kept)
    && Represents(kept, sorted[..i])
    && forall j :: i <= j < |sorted| && kept != [] ==> kept[|kept| - 1] <= sorted[j]
  }

  lemma DedupeOneMore(kept: seq<real>, sorted: seq<real>, i: nat)
    requires Ascending(sorted) && Deduped(kept, sorted, i) && i < |sorted|
    ensures Deduped(if Keeps(kept, sorted[i]) then kept + [sorted[i]] else kept, sorted, i + 1)
  {
    var x := sorted[i];
    Verdict(kept, x);
    hide Keeps, JustAbove, Represents, Gapped, Epsilon;
    assert sorted[..i + 1] == sorted[..i] + [x];
    RepresentsOneMore(kept, sorted[..i], x, Keeps(kept, x));
    if Keeps(kept, x) {
      KeepGapped(kept, x);
    }
  }

  /** Sort the probed times, then drop each that is too close to the last one kept. */
  method KeyframeTimes(probed: seq<real>) returns (times: seq<real>)
    ensures Gapped(times)
    ensures Represents(times, probed)
  {
    var sorted := SortTimes(probed);
    SortAscends(probed);
    times := [];
    assert Deduped(times, sorted, 0);
    hide *;
    for i := 0 to |sorted|
      invariant Deduped(times, sorted, i)
    {
      DedupeOneMore(times, sorted, i);
      if Keeps(times, sorted[i]) {
        times := times + [sorted[i]];
      }
    }
    AllDeduped(times, sorted, probed);
  }

  lemma AllDeduped(kept: seq<real>, sorted: seq<real>, probed: seq<real>)
    requires Deduped(kept, sorted, |sorted|) && multiset(sorted) == multiset(probed)
    ensures Gapped(kept) && Represents(kept, probed)
  {
    hide Gapped, Represents;
    assert sorted[..|sorted|] == sorted;
    SameTimes(kept, sorted, probed);
  }

  lemma SameTimes(kept: seq<real>, xs: seq<real>, ys: seq<real>)
    requires Represents(kept, xs) && multiset(xs) == multiset(ys)
    ensures Represents(kept, ys)
  {
    hide JustAbove;
    assert forall x :: x in xs <==> x in multiset(xs);
    assert forall x :: x in ys <==> x in multiset(ys);
  }

  /** Those two facts leave only one possible list. */
  lemma {:induction false} OneListRepresents(a: seq<real>, b: seq<real>, times: seq<real>)
    requires Gapped(a) && Represents(a, times)
    requires Gapped(b) && Represents(b, times)
    ensures a == b
  {
    if |a| != |b| {
      SamePrefix(a, b, times, if |a| < |b| then |a| else |b|);
    }
    forall k | 0 <= k < |a| ensures a[k] == b[k] {
      SamePrefix(a, b, times, k);
    }
  }

  lemma {:induction false} SamePrefix(a: seq<real>, b: seq<real>, times: seq<real>, k: nat)
    requires Gapped(a) && Represents(a, times)
    requires Gapped(b) && Represents(b, times)
    requires k < |a| || k < |b|
    ensures k < |a| && k < |b| && a[k] == b[k]
  {
    if k > 0 { SamePrefix(a, b, times, k - 1); }
    if k < |a| { NoLater(a, b, times, k); }
    if k < |b| { NoLater(b, a, times, k); }
  }

  lemma StandIn(kept: seq<real>, times: seq<real>, x: real) returns (j: nat)
    requires Represents(kept, times) && x in times
    ensures j < |kept| && JustAbove(kept[j], x)
  {
    hide JustAbove;
    var k :| k in kept && JustAbove(k, x);
    j :| 0 <= j < |kept| && kept[j] == k;
  }

  lemma IsOneOf(kept: seq<real>, times: seq<real>, k: nat)
    requires Represents(kept, times) && k < |kept|
    ensures kept[k] in times
  {
    var x := kept[k];
    assert x in kept;
  }

  lemma NoLater(a: seq<real>, b: seq<real>, times: seq<real>, k: nat)
    requires Gapped(a) && Represents(a, times)
    requires Gapped(b) && Represents(b, times)
    requires k < |a| && (k > 0 ==> k <= |b| && a[k - 1] == b[k - 1])
    ensures k < |b| && b[k] <= a[k]
  {
    hide Gapped, Represents;
    IsOneOf(a, times, k);
    var j := StandIn(b, times, a[k]);
    if k > 0 {
      GappedFrom(a, k - 1, k);
      if j < k - 1 { GappedFrom(b, j, k - 1); }
    }
    assert Epsilon() > 0.0;
    hide Epsilon;
    assert j >= k;
    if k < j { GappedFrom(b, k, j); }
  }
}
