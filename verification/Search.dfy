/** Subsequence search: the plain yes/no form and the scored, case-folding form with its highlight spans. */
module Search {
  import opened Wrappers

  datatype FuzzyMatch = FuzzyMatch(score: int, spans: seq<nat>)

  function Lower(c: char): char {
    if 'A' <= c <= 'Z' then (c as int + 32) as char else c
  }

  function LowerAll(s: string): (r: string)
    ensures |r| == |s|
    ensures forall i :: 0 <= i < |s| ==> r[i] == Lower(s[i])
  {
    seq(|s|, i requires 0 <= i < |s| => Lower(s[i]))
  }

  /** The needle's characters stand in the haystack at the increasing positions `at`. */
  ghost predicate Embeds(needle: string, hay: string, at: seq<nat>) {
    && |at| == |needle|
    && (forall k :: 0 <= k < |at| ==> at[k] < |hay| && hay[at[k]] == needle[k])
    && (forall j, k :: 0 <= j < k < |at| ==> at[j] < at[k])
  }

  ghost predicate NoEmbedding(needle: string, hay: string) {
    forall at :: !Embeds(needle, hay, at)
  }

  /** An embedding none of whose positions any embedding undercuts. */
  ghost predicate Leftmost(needle: string, hay: string, at: seq<nat>) {
    && Embeds(needle, hay, at)
    && forall e, k :: Embeds(needle, hay, e) && 0 <= k < |at| ==> at[k] <= e[k]
  }

  /** Where the scan resumes after the positions found so far. */
  function ResumeAt(at: seq<nat>): nat {
    if at == [] then 0 else at[|at| - 1] + 1
  }

  /** Any embedding puts the next character at an occurrence from `ResumeAt` on. */
  lemma NextOccurs(needle: string, k: nat, hay: string, at: seq<nat>, e: seq<nat>)
    requires k < |needle| && Leftmost(needle[..k], hay, at) && Embeds(needle, hay, e)
    ensures ResumeAt(at) <= e[k] < |hay| && hay[e[k]] == needle[k]
    ensures forall j :: 0 <= j < k ==> at[j] <= e[j]
  {
    assert Embeds(needle[..k], hay, e[..k]);
    forall j | 0 <= j < k ensures at[j] <= e[j] {
      assert at[j] <= e[..k][j];
    }
  }

  lemma TakeNext(needle: string, k: nat, hay: string, at: seq<nat>, h: nat)
    requires k < |needle| && Leftmost(needle[..k], hay, at)
    requires ResumeAt(at) <= h < |hay| && hay[h] == needle[k]
    requires forall i :: ResumeAt(at) <= i < h ==> hay[i] != needle[k]
    ensures Leftmost(needle[..k + 1], hay, at + [h])
  {
    var n := needle[..k + 1];
    assert needle[..k] == n[..k];
    assert Embeds(n, hay, at + [h]);
    forall e, j | Embeds(n, hay, e) && 0 <= j < |at + [h]| ensures (at + [h])[j] <= e[j] {
      NextOccurs(n, k, hay, at, e);
    }
  }

  lemma NoNext(needle: string, k: nat, hay: string, at: seq<nat>)
    requires k < |needle| && Leftmost(needle[..k], hay, at)
    requires forall i :: ResumeAt(at) <= i < |hay| ==> hay[i] != needle[k]
    ensures forall e :: !Embeds(needle, hay, e)
  {
    hide Embeds, Leftmost;
    forall e ensures !Embeds(needle, hay, e) {
      if Embeds(needle, hay, e) {
        NextOccurs(needle, k, hay, at, e);
      }
    }
  }

  method FuzzySubsequence(needle: string, haystack: string) returns (found: bool)
    ensures found <==> !NoEmbedding(needle, haystack)
  {
    var next := 0;
    ghost var at: seq<nat> := [];
    hide Embeds;
    assert Leftmost(needle[..0], haystack, at) by { NothingIsLeftmost(haystack); }
    for k := 0 to |needle|
      invariant |at| == k && Leftmost(needle[..k], haystack, at)
      invariant next == ResumeAt(at)
      invariant forall j :: 0 <= j < |at| ==> at[j] < |haystack|
    {
      hide Leftmost;
      while next < |haystack| && haystack[next] != needle[k]
        invariant ResumeAt(at) <= next <= |haystack|
        invariant forall i :: ResumeAt(at) <= i < next ==> haystack[i] != needle[k]
      {
        next := next + 1;
      }
      if next == |haystack| {
        NoNext(needle, k, haystack, at);
        return false;
      }
      TakeNext(needle, k, haystack, at, next);
      at := at + [next];
      next := next + 1;
    }
    assert needle[..|needle|] == needle;
    return true;
  }

  lemma NothingIsLeftmost(hay: string)
    ensures Leftmost("", hay, [])
  {
  }

  predicate Within(at: seq<nat>, n: nat) {
    forall k :: 0 <= k < |at| ==> at[k] < n
  }

  predicate IsBoundary(c: char) {
    c == ' ' || c == '_' || c == '-' || c == '/' || c == '.'
  }

  /** What one more matched character adds. */
  function Reward(hay: string, previous: Option<nat>, h: nat): int
    requires h < |hay|
  {
    10
    + (if previous.Some? && h == previous.value + 1 then 8 else 0)
    + (if h == 0 then 12 else if IsBoundary(hay[h - 1]) then 6 else 0)
  }

  function LastOf(at: seq<nat>): Option<nat> {
    if at == [] then None else Some(at[|at| - 1])
  }

  function Bonuses(hay: string, at: seq<nat>): int
    requires Within(at, |hay|)
  {
    if at == [] then 0
    else
      var (before, h) := (at[..|at| - 1], at[|at| - 1]);
      Bonuses(hay, before) + Reward(hay, LastOf(before), h)
  }

  /** The score of a match: bonuses, less a quarter of the unmatched length. */
  function Score(hay: string, at: seq<nat>): int
    requires Within(at, |hay|)
    requires |at| <= |hay|
  {
    Bonuses(hay, at) - (|hay| - |at|) / 4
  }

  /** No character in the range matches, ignoring ASCII case. */
  predicate Passed(hay: string, c: char, start: nat, end: nat)
    requires end <= |hay|
  {
    forall i :: start <= i < end ==> Lower(hay[i]) != Lower(c)
  }

  /** The first position from `start` on whose character matches, ignoring ASCII case. */
  method NextMatch(haystack: string, c: char, start: nat) returns (index: nat)
    requires start <= |haystack|
    ensures start <= index <= |haystack|
    ensures Passed(haystack, c, start, index)
    ensures index < |haystack| ==> Lower(haystack[index]) == Lower(c)
  {
    index := start;
    while index < |haystack| && !(haystack[index] == c || Lower(haystack[index]) == Lower(c))
      invariant start <= index <= |haystack|
      invariant forall i :: start <= i < index ==> Lower(haystack[i]) != Lower(c)
    {
      index := index + 1;
    }
  }

  /** The spans found for the first k characters of the needle. */
  ghost predicate Found(needle: string, hay: string, k: nat, at: seq<nat>) {
    && k <= |needle| && |at| == k
    && Leftmost(LowerAll(needle)[..k], LowerAll(hay), at)
    && Within(at, |hay|)
  }

  lemma FoundNext(needle: string, hay: string, k: nat, at: seq<nat>, h: nat)
    requires k < |needle| && Found(needle, hay, k, at)
    requires ResumeAt(at) <= h <= |hay| && Passed(hay, needle[k], ResumeAt(at), h)
    requires h < |hay| ==> Lower(hay[h]) == Lower(needle[k])
    ensures h < |hay| ==> Found(needle, hay, k + 1, at + [h]) && Within(at + [h], |hay|)
    ensures |at| == k
    ensures h == |hay| ==> NoEmbedding(LowerAll(needle), LowerAll(hay))
  {
    hide Leftmost, Embeds;
    if h < |hay| {
      TakeNext(LowerAll(needle), k, LowerAll(hay), at, h);
    } else {
      NoNext(LowerAll(needle), k, LowerAll(hay), at);
    }
  }

  lemma FoundAll(needle: string, hay: string, at: seq<nat>)
    ensures Found(needle, hay, 0, []) && ResumeAt([]) == 0
    ensures Found(needle, hay, |needle|, at) ==>
      |at| <= |hay| && Leftmost(LowerAll(needle), LowerAll(hay), at) && |at| == |needle|
    ensures Found(needle, hay, |needle|, at) ==> !NoEmbedding(LowerAll(needle), LowerAll(hay))
  {
    assert LowerAll(needle)[..|needle|] == LowerAll(needle);
    if Found(needle, hay, |needle|, at) {
      EmbeddingFits(LowerAll(needle), LowerAll(hay), at);
    }
  }

  lemma ScoreOf(hay: string, at: seq<nat>)
    requires Within(at, |hay|) && |at| <= |hay|
    ensures Score(hay, at) == Bonuses(hay, at) - (|hay| - |at|) / 4
  {
  }

  method ComputeReward(haystack: string, previous: Option<nat>, index: nat) returns (delta: int)
    requires index < |haystack|
    ensures delta == Reward(haystack, previous, index)
  {
    delta := 10;
    if previous.Some? && index == previous.value + 1 {
      delta := delta + 8;
    }
    if index == 0 {
      delta := delta + 12;
    } else if IsBoundary(haystack[index - 1]) {
      delta := delta + 6;
    }
  }

  /** Where the search is once the first k characters are matched. */
  ghost predicate Searching(needle: string, hay: string, k: nat, at: seq<nat>, index: nat, previous: Option<nat>,
                            score: int)
  {
    && Found(needle, hay, k, at) && Within(at, |hay|)
    && index == ResumeAt(at) <= |hay| && previous == LastOf(at) && score == Bonuses(hay, at)
  }

  lemma SearchStarts(needle: string, hay: string)
    ensures Searching(needle, hay, 0, [], 0, None, 0)
  {
    FoundAll(needle, hay, []);
  }

  lemma SearchMoves(needle: string, hay: string, k: nat, at: seq<nat>, index: nat, previous: Option<nat>, score: int,
                    h: nat)
    requires k < |needle| && Searching(needle, hay, k, at, index, previous, score)
    requires index <= h <= |hay| && Passed(hay, needle[k], index, h)
    requires h < |hay| ==> Lower(hay[h]) == Lower(needle[k])
    ensures h < |hay| ==>
      Searching(needle, hay, k + 1, at + [h], h + 1, Some(h), score + Reward(hay, previous, h))
    ensures h == |hay| ==> NoEmbedding(LowerAll(needle), LowerAll(hay))
  {
    hide Found, Within, ResumeAt, LastOf, Bonuses, Passed, Reward;
    FoundNext(needle, hay, k, at, h);
    if h < |hay| {
      BonusesGrow(hay, at, h);
    }
  }

  /** A match with its score. */
  ghost predicate Matches(needle: string, hay: string, m: FuzzyMatch) {
    && Leftmost(LowerAll(needle), LowerAll(hay), m.spans)
    && |m.spans| <= |hay| && Within(m.spans, |hay|)
    && m.score == if needle == [] then 0 else Score(hay, m.spans)
  }

  lemma SearchEnds(needle: string, hay: string, at: seq<nat>, index: nat, previous: Option<nat>, score: int)
    requires Searching(needle, hay, |needle|, at, index, previous, score)
    ensures |at| <= |hay| && !NoEmbedding(LowerAll(needle), LowerAll(hay))
    ensures needle != [] ==> Matches(needle, hay, FuzzyMatch(score - (|hay| - |at|) / 4, at))
    ensures needle == [] ==> Matches(needle, hay, FuzzyMatch(0, []))
  {
    FoundAll(needle, hay, at);
    ScoreOf(hay, at);
  }

  method FuzzyFind(needle: string, haystack: string) returns (r: Option<FuzzyMatch>)
    ensures r.None? <==> NoEmbedding(LowerAll(needle), LowerAll(haystack))
    ensures r.Some? ==> Matches(needle, haystack, r.value)
  {
    hide *;
    SearchStarts(needle, haystack);
    if needle == [] {
      SearchEnds(needle, haystack, [], 0, None, 0);
      return Some(FuzzyMatch(0, []));
    }
    var spans: seq<nat> := [];
    var index, score := 0, 0;
    var previous: Option<nat> := None;
    for k := 0 to |needle|
      invariant index <= |haystack|
      invariant Searching(needle, haystack, k, spans, index, previous, score)
    {
      var h := NextMatch(haystack, needle[k], index);
      SearchMoves(needle, haystack, k, spans, index, previous, score, h);
      if h >= |haystack| {
        return None;
      }
      var delta := ComputeReward(haystack, previous, h);
      score := score + delta;
      spans := spans + [h];
      previous := Some(h);
      index := h + 1;
    }
    SearchEnds(needle, haystack, spans, index, previous, score);
    var unmatched := if |haystack| >= |spans| then |haystack| - |spans| else 0;
    return Some(FuzzyMatch(score - unmatched / 4, spans));
  }

  lemma BonusesGrow(hay: string, at: seq<nat>, h: nat)
    requires Within(at, |hay|) && h < |hay|
    ensures Within(at + [h], |hay|)
    ensures Bonuses(hay, at + [h]) == Bonuses(hay, at) + Reward(hay, LastOf(at), h)
    ensures ResumeAt(at + [h]) == h + 1 && LastOf(at + [h]) == Some(h)
  {
  }

  lemma {:induction false} EmbeddingFits(needle: string, hay: string, at: seq<nat>)
    requires Embeds(needle, hay, at)
    ensures |at| <= |hay|
    ensures forall k :: 0 <= k < |at| ==> at[k] >= k
  {
    if at != [] {
      var m := |at| - 1;
      assert Embeds(needle[..m], hay, at[..m]);
      EmbeddingFits(needle[..m], hay, at[..m]);
      assert m > 0 ==> at[..m][m - 1] >= m - 1;
      assert at[m] >= m;
    }
  }

  /** Whatever the plain search finds, the scored search finds too. */
  lemma ExactMatchesFold(needle: string, hay: string)
    ensures !NoEmbedding(needle, hay) ==> !NoEmbedding(LowerAll(needle), LowerAll(hay))
  {
    if at :| Embeds(needle, hay, at) {
      assert Embeds(LowerAll(needle), LowerAll(hay), at);
    }
  }

  /** Each matched character is worth 10 to 24 points, and the first at most 22. */
  lemma {:induction false} BonusBounds(needle: string, hay: string, at: seq<nat>)
    requires Embeds(needle, hay, at) && at != []
    ensures 10 * |at| <= Bonuses(hay, at) <= 24 * |at| - 2
  {
    var m := |at| - 1;
    EmbeddingFits(needle, hay, at);
    if m > 0 {
      assert Embeds(needle[..m], hay, at[..m]);
      BonusBounds(needle[..m], hay, at[..m]);
    }
  }

  lemma ScoreBounds(needle: string, hay: string, at: seq<nat>)
    requires Embeds(LowerAll(needle), LowerAll(hay), at) && needle != []
    ensures |at| <= |hay|
    ensures 10 * |needle| - (|hay| - |needle|) / 4 <= Score(hay, at)
    ensures Score(hay, at) <= 24 * |needle| - 2 - (|hay| - |needle|) / 4
  {
    EmbeddingFits(LowerAll(needle), LowerAll(hay), at);
    BonusBoundsFolded(needle, hay, at);
  }

  lemma BonusBoundsFolded(needle: string, hay: string, at: seq<nat>)
    requires Embeds(LowerAll(needle), LowerAll(hay), at) && needle != []
    ensures 10 * |at| <= Bonuses(hay, at) <= 24 * |at| - 2
  {
    var own := seq(|at|, k requires 0 <= k < |at| => hay[at[k]]);
    assert Embeds(own, hay, at);
    BonusBounds(own, hay, at);
  }

  /** A needle the haystack starts with is matched exactly there. */
  lemma PrefixIsMatchedInPlace(needle: string, hay: string, at: seq<nat>)
    requires Leftmost(LowerAll(needle), LowerAll(hay), at)
    requires LowerAll(needle) <= LowerAll(hay)
    ensures forall k :: 0 <= k < |at| ==> at[k] == k
    ensures needle != [] ==> Bonuses(hay, at) >= 18 * |needle| + 4
  {
    var n, h := LowerAll(needle), LowerAll(hay);
    var start := seq(|needle|, k => k);
    assert Embeds(n, h, start);
    EmbeddingFits(n, h, at);
    forall k | 0 <= k < |at| ensures at[k] == k {
      assert at[k] <= start[k];
    }
    if needle != [] {
      RunIsWorth(hay, at);
    }
  }

  lemma {:induction false} RunIsWorth(hay: string, at: seq<nat>)
    requires at != [] && |at| <= |hay| && forall k :: 0 <= k < |at| ==> at[k] == k
    ensures Bonuses(hay, at) >= 18 * |at| + 4
  {
    var m := |at| - 1;
    if m > 0 {
      RunIsWorth(hay, at[..m]);
    } else {
      assert Bonuses(hay, at[..0]) == 0;
    }
  }
}
