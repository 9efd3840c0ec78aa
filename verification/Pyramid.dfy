/** The multi-resolution peak pyramid of a waveform. */
module Pyramid {

  // A level this short is drawn whole, so no coarser one is built.
  const DRAWN_WHOLE: nat := 64

  datatype WaveformPyramid = WaveformPyramid(sampleRate: nat, baseSamples: nat, levels: seq<seq<real>>)

  function Abs(x: real): real {
    if x < 0.0 then -x else x
  }

  function Max(x: real, y: real): real {
    if x >= y then x else y
  }

  function Least(m: nat, n: nat): nat {
    if m <= n then m else n
  }

  function Pow2(k: nat): (p: nat)
    ensures p > 0
  {
    if k == 0 then 1 else 2 * Pow2(k - 1)
  }

  /** `p` is the largest magnitude among samples lo..hi, and zero when there are none. */
  ghost predicate IsPeak(p: real, samples: seq<real>, lo: nat, hi: nat) {
    && lo <= hi <= |samples|
    && (forall i :: lo <= i < hi ==> Abs(samples[i]) <= p)
    && (if lo == hi then p == 0.0 else exists i :: lo <= i < hi && Abs(samples[i]) == p)
  }

  /** `m` buckets of `w` samples are just enough for `n` samples. */
  predicate JustEnough(m: nat, n: nat, w: nat) {
    n <= m * w && (m > 0 ==> (m - 1) * w < n)
  }

  lemma Scale(x: int, y: int, w: nat)
    ensures x <= y ==> x * w <= y * w
  {
  }

  lemma OneNumberIsJustEnough(m: nat, m': nat, n: nat, w: nat)
    requires JustEnough(m, n, w) && JustEnough(m', n, w)
    ensures m == m'
  {
    Scale(m, m' - 1, w);
    Scale(m', m - 1, w);
  }

  lemma JustEnoughIsRoundedUp(m: nat, n: nat, w: nat)
    requires w > 0 && JustEnough(m, n, w)
    ensures m == (n + w - 1) / w
  {
    var q := (n + w - 1) / w;
    var r := (n + w - 1) % w;
    assert q * w + r == n + w - 1;
    assert (q - 1) * w == q * w - w;
    OneNumberIsJustEnough(m, q, n, w);
  }

  /** Where bucket j of width w starts, within n samples. */
  function Edge(j: nat, w: nat, n: nat): nat {
    Least(j * w, n)
  }

  /** Every bucket of the level holds the peak of its `w` samples, the last one of what is left. */
  ghost predicate IsLevel(level: seq<real>, samples: seq<real>, w: nat) {
    && JustEnough(|level|, |samples|, w)
    && forall j :: 0 <= j < |level| ==> IsPeak(level[j], samples, Edge(j, w, |samples|), Edge(j + 1, w, |samples|))
  }

  /** Level k is the peaks over base * 2^k samples; all levels but the last are too long to draw whole. */
  ghost predicate IsPyramid(levels: seq<seq<real>>, samples: seq<real>, base: nat) {
    && levels != []
    && (forall k :: 0 <= k < |levels| ==> IsLevel(levels[k], samples, base * Pow2(k)))
    && (forall k :: 0 <= k < |levels| - 1 ==> |levels[k]| > DRAWN_WHOLE)
  }

  lemma PeakOfNothing(samples: seq<real>, lo: nat)
    requires lo <= |samples|
    ensures IsPeak(0.0, samples, lo, lo)
  {
  }

  lemma PeakIsMagnitude(p: real, samples: seq<real>, lo: nat, hi: nat)
    requires IsPeak(p, samples, lo, hi)
    ensures p >= 0.0
  {
  }

  lemma PeakGrows(p: real, samples: seq<real>, lo: nat, hi: nat)
    requires IsPeak(p, samples, lo, hi) && hi < |samples|
    ensures IsPeak(Max(p, Abs(samples[hi])), samples, lo, hi + 1)
  {
  }

  lemma PeaksJoin(p: real, q: real, samples: seq<real>, lo: nat, mid: nat, hi: nat)
    requires IsPeak(p, samples, lo, mid) && IsPeak(q, samples, mid, hi)
    ensures IsPeak(Max(p, q), samples, lo, hi)
  {
  }

  /** The next bucket, when there is still something to put in it. */
  lemma AddBucket(level: seq<real>, samples: seq<real>, w: nat, p: real)
    requires w > 0 && |level| * w < |samples|
    requires forall j :: 0 <= j < |level| ==>
      IsPeak(level[j], samples, Edge(j, w, |samples|), Edge(j + 1, w, |samples|))
    requires IsPeak(p, samples, Edge(|level|, w, |samples|), Edge(|level| + 1, w, |samples|))
    ensures forall j :: 0 <= j < |level + [p]| ==>
      IsPeak((level + [p])[j], samples, Edge(j, w, |samples|), Edge(j + 1, w, |samples|))
  {
  }

  /** Two neighbouring buckets of width w are one of width 2w. */
  lemma HalvedBucket(level: seq<real>, samples: seq<real>, w: nat, j: nat)
    requires IsLevel(level, samples, w) && 2 * j < |level|
    ensures IsPeak(if 2 * j + 1 < |level| then Max(level[2 * j], level[2 * j + 1]) else level[2 * j],
                   samples, Edge(j, 2 * w, |samples|), Edge(j + 1, 2 * w, |samples|))
  {
    var n := |samples|;
    EdgesDouble(j, w, n);
    hide IsPeak;
    assert IsPeak(level[2 * j], samples, Edge(2 * j, w, n), Edge(2 * j + 1, w, n));
    if 2 * j + 1 < |level| {
      assert IsPeak(level[2 * j + 1], samples, Edge(2 * j + 1, w, n), Edge(2 * j + 2, w, n));
      PeaksJoin(level[2 * j], level[2 * j + 1], samples, Edge(2 * j, w, n), Edge(2 * j + 1, w, n),
        Edge(2 * j + 2, w, n));
    } else {
      assert |level| * w >= n;
      assert (2 * j + 2) * w >= |level| * w;
    }
  }

  lemma EdgesDouble(j: nat, w: nat, n: nat)
    ensures Edge(j, 2 * w, n) == Edge(2 * j, w, n)
    ensures Edge(j + 1, 2 * w, n) == Edge(2 * j + 2, w, n)
  {
    assert j * (2 * w) == (2 * j) * w;
    assert (j + 1) * (2 * w) == (2 * j + 2) * w;
  }

  lemma HalfIsJustEnough(m: nat, n: nat, w: nat)
    requires JustEnough(m, n, w)
    ensures JustEnough((m + 1) / 2, n, 2 * w)
  {
    var h := (m + 1) / 2;
    assert h * (2 * w) == (2 * h) * w >= m * w;
    if h > 0 {
      assert (h - 1) * (2 * w) == (2 * h - 2) * w <= (m - 1) * w;
    }
  }

  /** Taking the larger of each pair of buckets gives the next coarser level. */
  ghost predicate Halves(next: seq<real>, level: seq<real>, done: nat) {
    && |next| == (done + 1) / 2
    && done <= |level|
    && forall j :: 0 <= j < |next| ==>
      next[j] == if 2 * j + 1 < |level| then Max(level[2 * j], level[2 * j + 1]) else level[2 * j]
  }

  lemma HalvedLevel(next: seq<real>, level: seq<real>, samples: seq<real>, w: nat)
    requires IsLevel(level, samples, w) && Halves(next, level, |level|)
    ensures IsLevel(next, samples, 2 * w)
  {
    HalfIsJustEnough(|level|, |samples|, w);
    hide IsLevel, IsPeak, JustEnough, Edge;
    forall j | 0 <= j < |next|
      ensures IsPeak(next[j], samples, Edge(j, 2 * w, |samples|), Edge(j + 1, 2 * w, |samples|))
    {
      HalvedBucket(level, samples, w, j);
    }
    LevelOf(next, samples, 2 * w);
  }

  lemma LevelOf(level: seq<real>, samples: seq<real>, w: nat)
    requires JustEnough(|level|, |samples|, w)
    requires forall j :: 0 <= j < |level| ==>
      IsPeak(level[j], samples, Edge(j, w, |samples|), Edge(j + 1, w, |samples|))
    ensures IsLevel(level, samples, w)
  {
  }

  lemma PeaksAreMagnitudes(level: seq<real>, samples: seq<real>, w: nat)
    requires IsLevel(level, samples, w)
    ensures forall j :: 0 <= j < |level| ==> level[j] >= 0.0
  {
    forall j | 0 <= j < |level| ensures level[j] >= 0.0 {
      PeakIsMagnitude(level[j], samples, Edge(j, w, |samples|), Edge(j + 1, w, |samples|));
    }
  }

  /** One peak per chunk of `base` samples. */
  method FinestLevel(samples: seq<real>, base: nat) returns (finest: seq<real>)
    requires base > 0
    ensures IsLevel(finest, samples, base)
  {
    finest := [];
    var start := 0;
    while start < |samples|
      invariant 0 <= start <= |samples|
      invariant start == Edge(|finest|, base, |samples|)
      invariant |finest| > 0 ==> (|finest| - 1) * base < |samples|
      invariant forall j :: 0 <= j < |finest| ==>
        IsPeak(finest[j], samples, Edge(j, base, |samples|), Edge(j + 1, base, |samples|))
      decreases |samples| - start
    {
      hide IsPeak;
      var end := Least(start + base, |samples|);
      var peak := 0.0;
      PeakOfNothing(samples, start);
      for i := start to end
        invariant IsPeak(peak, samples, start, i)
      {
        PeakGrows(peak, samples, start, i);
        peak := Max(peak, Abs(samples[i]));
      }
      assert (|finest| + 1) * base == |finest| * base + base;
      AddBucket(finest, samples, base, peak);
      finest := finest + [peak];
      start := end;
    }
  }

  /** One bucket per pair of buckets. */
  method CoarserLevel(level: seq<real>, ghost samples: seq<real>, ghost w: nat) returns (next: seq<real>)
    requires IsLevel(level, samples, w)
    ensures IsLevel(next, samples, 2 * w)
    ensures |next| == (|level| + 1) / 2
  {
    PeaksAreMagnitudes(level, samples, w);
    hide IsLevel;
    next := [];
    var i := 0;
    while i < |level|
      invariant 0 <= i <= |level| && (i % 2 == 0 || i == |level|)
      invariant Halves(next, level, i)
    {
      var end := Least(i + 2, |level|);
      var peak := Max(0.0, level[i]);
      if i + 1 < end {
        peak := Max(peak, level[i + 1]);
      }
      next := next + [peak];
      i := end;
    }
    HalvedLevel(next, level, samples, w);
  }

  lemma ExtendPyramid(levels: seq<seq<real>>, samples: seq<real>, base: nat, next: seq<real>)
    requires IsPyramid(levels, samples, base)
    requires |levels[|levels| - 1]| > DRAWN_WHOLE
    requires IsLevel(next, samples, 2 * (base * Pow2(|levels| - 1)))
    ensures IsPyramid(levels + [next], samples, base)
  {
    hide IsLevel;
    assert 2 * (base * Pow2(|levels| - 1)) == base * Pow2(|levels|);
  }

  method Build(samples: seq<real>, sampleRate: nat) returns (p: WaveformPyramid)
    requires sampleRate > 0
    ensures p.sampleRate == p.baseSamples == sampleRate
    ensures IsPyramid(p.levels, samples, sampleRate)
    ensures |p.levels[|p.levels| - 1]| <= 64 && forall k :: 0 <= k < |p.levels| - 1 ==> |p.levels[k]| > 64
  {
    var base := sampleRate;
    var finest := FinestLevel(samples, base);
    var levels := [finest];
    assert base * Pow2(0) == base;
    while |levels[|levels| - 1]| > DRAWN_WHOLE
      invariant IsPyramid(levels, samples, base)
      decreases |levels[|levels| - 1]|
    {
      hide IsLevel;
      var last := levels[|levels| - 1];
      var next := CoarserLevel(last, samples, base * Pow2(|levels| - 1));
      ExtendPyramid(levels, samples, base, next);
      levels := levels + [next];
    }
    return WaveformPyramid(sampleRate, base, levels);
  }

  /** The contents of a level are settled by the samples alone. */
  lemma LevelIsUnique(a: seq<real>, b: seq<real>, samples: seq<real>, w: nat)
    requires IsLevel(a, samples, w) && IsLevel(b, samples, w)
    ensures a == b
  {
    OneNumberIsJustEnough(|a|, |b|, |samples|, w);
    forall j | 0 <= j < |a| ensures a[j] == b[j] {
      SamePeak(a[j], b[j], samples, Edge(j, w, |samples|), Edge(j + 1, w, |samples|));
    }
  }

  lemma SamePeak(p: real, q: real, samples: seq<real>, lo: nat, hi: nat)
    requires IsPeak(p, samples, lo, hi) && IsPeak(q, samples, lo, hi)
    ensures p == q
  {
  }

  function FirstFit(levels: seq<seq<real>>, points: nat): (k: nat)
    ensures k <= |levels|
    ensures k < |levels| ==> |levels[k]| <= points
    ensures forall j :: 0 <= j < k ==> |levels[j]| > points
  {
    if levels == [] || |levels[0]| <= points then 0 else 1 + FirstFit(levels[1..], points)
  }

  function LevelForPoints(levels: seq<seq<real>>, targetPoints: nat): nat {
    var points := if targetPoints == 0 then 1 else targetPoints;
    var k := FirstFit(levels, points);
    if k < |levels| then k else if |levels| == 0 then 0 else |levels| - 1
  }

  /** Of any levels at all the first is chosen that has no more points than asked for, at least one; else the last. */
  lemma LevelIsChosen(levels: seq<seq<real>>, targetPoints: nat)
    ensures var k := LevelForPoints(levels, targetPoints);
      if levels == [] then k == 0
      else
        && k < |levels|
        && (forall j :: 0 <= j < k ==> |levels[j]| > targetPoints && |levels[j]| > 1)
        && (|levels[k]| <= targetPoints || |levels[k]| <= 1 || k == |levels| - 1)
  {
  }

  lemma NeighbourSizes(levels: seq<seq<real>>, samples: seq<real>, base: nat, k: nat)
    requires IsPyramid(levels, samples, base) && k + 1 < |levels|
    ensures |levels[k + 1]| == (|levels[k]| + 1) / 2
  {
    var w := base * Pow2(k);
    assert base * Pow2(k + 1) == 2 * w;
    LevelSize(levels, samples, base, k);
    LevelSize(levels, samples, base, k + 1);
    hide IsPyramid;
    HalfIsJustEnough(|levels[k]|, |samples|, w);
    OneNumberIsJustEnough(|levels[k + 1]|, (|levels[k]| + 1) / 2, |samples|, 2 * w);
  }

  lemma LevelSize(levels: seq<seq<real>>, samples: seq<real>, base: nat, k: nat)
    requires IsPyramid(levels, samples, base) && k < |levels|
    ensures JustEnough(|levels[k]|, |samples|, base * Pow2(k))
  {
  }

  /**
    The level chosen is the finest that fits the target, and never has fewer than half the
    points of the next finer one, which does not fit; if none fits, it is the coarsest there is.
   */
  lemma LevelForPointsIsFinestFit(levels: seq<seq<real>>, samples: seq<real>, base: nat, targetPoints: nat)
    requires IsPyramid(levels, samples, base)
    ensures var (k, points) := (LevelForPoints(levels, targetPoints), if targetPoints == 0 then 1 else targetPoints);
      && k < |levels|
      && (forall j :: 0 <= j < k ==> |levels[j]| > points)
      && (|levels[k]| <= points || (k == |levels| - 1 && forall j :: 0 <= j < |levels| ==> |levels[j]| > points))
      && (k > 0 ==> 2 * |levels[k]| > points)
  {
    var k := LevelForPoints(levels, targetPoints);
    if k > 0 {
      NeighbourSizes(levels, samples, base, k - 1);
    }
  }

  /** No finer level is as short: the coarsest level there is of those that fit, or the last if none fits. */
  predicate IsCoarsestFit(levels: seq<seq<real>>, targetPoints: nat, k: nat) {
    var points := if targetPoints == 0 then 1 else targetPoints;
    && k < |levels|
    && (|levels[k]| <= points || k == |levels| - 1)
    && (forall j :: k < j < |levels| ==> |levels[j]| > points)
  }

  /** The level chosen is the coarsest that fits exactly when no more than the last one fits. */
  lemma LevelForPointsIsCoarsestIff(levels: seq<seq<real>>, samples: seq<real>, base: nat, targetPoints: nat)
    requires IsPyramid(levels, samples, base)
    ensures var points := if targetPoints == 0 then 1 else targetPoints;
      IsCoarsestFit(levels, targetPoints, LevelForPoints(levels, targetPoints))
      <==> (|levels| < 2 || |levels[|levels| - 2]| > points)
  {
    var points := if targetPoints == 0 then 1 else targetPoints;
    var k, n := LevelForPoints(levels, targetPoints), |levels|;
    assert n >= 1;
    if n >= 2 {
      LevelsShrink(levels, samples, base, n - 2, n - 1);
      if |levels[n - 2]| > points {
        forall j | 0 <= j < n - 1 ensures |levels[j]| > points {
          LevelsShrink(levels, samples, base, j, n - 2);
        }
      }
    }
    hide IsPyramid;
    assert k == n - 1 || |levels[k]| <= points;
  }

  lemma {:induction false} LevelsShrink(levels: seq<seq<real>>, samples: seq<real>, base: nat, k: nat, j: nat)
    requires IsPyramid(levels, samples, base) && k <= j < |levels|
    ensures |levels[j]| <= |levels[k]|
  {
    if k < j {
      LevelsShrink(levels, samples, base, k, j - 1);
      NeighbourSizes(levels, samples, base, j - 1);
    }
  }

  const SILENT: seq<real> := seq(65, _ => 0.0)
  const HALVED: seq<real> := seq(33, _ => 0.0)

  /** 65 silent samples, one per bucket, and room for 100 points: both levels fit and the finer one is chosen. */
  lemma ChosenLevelNeedNotBeCoarsest()
    ensures IsPyramid([SILENT, HALVED], SILENT, 1)
    ensures LevelForPoints([SILENT, HALVED], 100) == 0
    ensures IsCoarsestFit([SILENT, HALVED], 100, 1) && !IsCoarsestFit([SILENT, HALVED], 100, 0)
  {
    var levels := [SILENT, HALVED];
    assert Pow2(0) == 1 && Pow2(1) == 2;
    forall j | 0 <= j < 65 ensures IsPeak(SILENT[j], SILENT, Edge(j, 1, 65), Edge(j + 1, 1, 65)) {
      assert Abs(SILENT[j]) == 0.0;
    }
    forall j | 0 <= j < 33 ensures IsPeak(HALVED[j], SILENT, Edge(j, 2, 65), Edge(j + 1, 2, 65)) {
      assert Abs(SILENT[2 * j]) == 0.0;
    }
    hide IsPeak;
    LevelOf(SILENT, SILENT, 1);
    LevelOf(HALVED, SILENT, 2);
    hide IsLevel;
    assert FirstFit(levels, 100) == 0;
  }

  /** A bucket is zero exactly when every sample under it is. */
  lemma SilenceStaysSilent(levels: seq<seq<real>>, samples: seq<real>, base: nat, k: nat, j: nat)
    requires IsPyramid(levels, samples, base) && k < |levels| && j < |levels[k]|
    ensures var (w, n) := (base * Pow2(k), |samples|);
      levels[k][j] == 0.0 <==> forall i :: Edge(j, w, n) <= i < Edge(j + 1, w, n) ==> samples[i] == 0.0
  {
    var w, n := base * Pow2(k), |samples|;
    assert IsLevel(levels[k], samples, w);
    assert IsPeak(levels[k][j], samples, Edge(j, w, n), Edge(j + 1, w, n));
    PeakIsMagnitude(levels[k][j], samples, Edge(j, w, n), Edge(j + 1, w, n));
  }
}
