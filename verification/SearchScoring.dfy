/**
  When the leftmost match is also the best-scoring one. The matcher never looks for a
  better match than the leftmost; these are the cases in which there is none.
 */
module SearchScoring {
  import opened Wrappers
  import opened Sequences
  import opened Search

  /** No match of the needle earns more than `at`; all of them pay the same for the unmatched rest. */
  ghost predicate ScoresBest(needle: string, hay: string, at: seq<nat>)
    requires Within(at, |hay|)
  {
    forall e :: Embeds(LowerAll(needle), LowerAll(hay), e) ==> EarnsAtMost(hay, e, at)
  }

  predicate EarnsAtMost(hay: string, e: seq<nat>, at: seq<nat>)
    requires Within(at, |hay|)
  {
    Within(e, |hay|) && Bonuses(hay, e) <= Bonuses(hay, at)
  }

  // ------------------------------------------------------------ an exact test

  function Better(x: Option<int>, y: Option<int>): Option<int> {
    if x.None? || (y.Some? && x.value < y.value) then y else x
  }

  function Plus(x: Option<int>, n: int): Option<int> {
    if x.Some? then Some(x.value + n) else None
  }

  /** The most that matching the needle with its last character at `h` can earn. */
  function BestAt(needle: string, hay: string, h: nat): Option<int>
    requires needle != [] && h < |hay|
    decreases |needle|, h
  {
    var m := |needle| - 1;
    if Lower(hay[h]) != Lower(needle[m]) then None
    else if m == 0 then Some(Reward(hay, None, h))
    else
      Better(Plus(BestBefore(needle[..m], hay, h), Reward(hay, None, h)),
             if h == 0 then None else Plus(BestAt(needle[..m], hay, h - 1), Reward(hay, None, h) + 8))
  }

  /** The same with the last character anywhere before `h`. */
  function BestBefore(needle: string, hay: string, h: nat): Option<int>
    requires needle != [] && h <= |hay|
    decreases |needle|, h
  {
    if h == 0 then None else Better(BestBefore(needle, hay, h - 1), BestAt(needle, hay, h - 1))
  }

  lemma {:induction false} BeforeCovers(needle: string, hay: string, h: nat, i: nat)
    requires needle != [] && i < h <= |hay| && BestAt(needle, hay, i).Some?
    ensures BestBefore(needle, hay, h).Some?
    ensures BestAt(needle, hay, i).value <= BestBefore(needle, hay, h).value
  {
    if i < h - 1 {
      BeforeCovers(needle, hay, h - 1, i);
    }
  }

  lemma PrefixEmbeds(needle: string, hay: string, e: seq<nat>)
    requires Embeds(LowerAll(needle), LowerAll(hay), e) && needle != []
    ensures Embeds(LowerAll(needle[..|needle| - 1]), LowerAll(hay), e[..|e| - 1])
    ensures |e| == |needle| && Within(e, |hay|)
    ensures e[|e| - 1] < |hay|
    ensures Lower(hay[e[|e| - 1]]) == Lower(needle[|needle| - 1])
    ensures |e| >= 2 ==> e[|e| - 2] < e[|e| - 1]
  {
  }

  lemma LastReward(hay: string, e: seq<nat>)
    requires e != [] && Within(e, |hay|)
    ensures Bonuses(hay, e) == Bonuses(hay, e[..|e| - 1]) + Reward(hay, LastOf(e[..|e| - 1]), e[|e| - 1])
  {
  }

  lemma NoneEarnsMoreAlone(needle: string, hay: string, e: seq<nat>)
    requires |needle| == |e| == 1 && Within(e, |hay|) && Lower(hay[e[0]]) == Lower(needle[0])
    ensures BestAt(needle, hay, e[0]) == Some(Bonuses(hay, e))
  {
    LastReward(hay, e);
    NothingEarned(hay);
    assert e[..0] == [];
    hide Reward, Bonuses, Lower;
  }

  /** The table covers a last character after a gap, and one right after the character before. */
  lemma BestAtCovers(needle: string, hay: string, h: nat)
    requires |needle| >= 2 && h < |hay| && Lower(hay[h]) == Lower(needle[|needle| - 1])
    ensures var (before, best) := (needle[..|needle| - 1], BestAt(needle, hay, h));
      && (BestBefore(before, hay, h).Some? ==>
            best.Some? && BestBefore(before, hay, h).value + Reward(hay, None, h) <= best.value)
      && (h > 0 && BestAt(before, hay, h - 1).Some? ==>
            best.Some? && BestAt(before, hay, h - 1).value + Reward(hay, None, h) + 8 <= best.value)
  {
    hide Reward, Lower, BestBefore;
  }

  lemma LastBut(e: seq<nat>)
    requires |e| >= 2
    ensures LastOf(e[..|e| - 1]) == Some(e[|e| - 2])
  {
  }

  /** One more character earns what the table adds for it. */
  lemma NoneEarnsMoreNext(needle: string, hay: string, e: seq<nat>)
    requires |needle| == |e| >= 2 && Within(e, |hay|) && Lower(hay[e[|e| - 1]]) == Lower(needle[|needle| - 1])
    requires e[|e| - 2] < e[|e| - 1] < |hay|
    requires var (before, last) := (needle[..|needle| - 1], e[|e| - 2]);
      BestAt(before, hay, last).Some? && Bonuses(hay, e[..|e| - 1]) <= BestAt(before, hay, last).value
    ensures BestAt(needle, hay, e[|e| - 1]).Some?
    ensures Bonuses(hay, e) <= BestAt(needle, hay, e[|e| - 1]).value
  {
    hide *;
    var (m, before) := (|e| - 1, needle[..|needle| - 1]);
    LastReward(hay, e);
    LastBut(e);
    var (last, h) := (e[m - 1], e[m]);
    BeforeCovers(before, hay, h, last);
    RewardOfNext(hay, last, h);
    BestAtCovers(needle, hay, h);
  }

  lemma RewardOfNext(hay: string, before: nat, h: nat)
    requires before < h < |hay|
    ensures Reward(hay, Some(before), h) == Reward(hay, None, h) + if h == before + 1 then 8 else 0
  {
  }

  /** No match earns more than the table says. */
  lemma {:induction false} NoneEarnsMore(needle: string, hay: string, e: seq<nat>)
    requires Embeds(LowerAll(needle), LowerAll(hay), e) && needle != []
    ensures Within(e, |hay|) && |e| == |needle|
    ensures BestAt(needle, hay, e[|e| - 1]).Some?
    ensures Bonuses(hay, e) <= BestAt(needle, hay, e[|e| - 1]).value
  {
    PrefixEmbeds(needle, hay, e);
    hide *;
    if |needle| == 1 {
      NoneEarnsMoreAlone(needle, hay, e);
    } else {
      NoneEarnsMore(needle[..|needle| - 1], hay, e[..|e| - 1]);
      NoneEarnsMoreNext(needle, hay, e);
    }
  }

  lemma NothingEarned(hay: string)
    ensures Bonuses(hay, []) == 0
  {
  }

  lemma RunReward(hay: string, before: seq<nat>, h: nat)
    requires h < |hay|
    ensures Reward(hay, LastOf(before), h)
      == Reward(hay, None, h) + if before != [] && h == before[|before| - 1] + 1 then 8 else 0
  {
  }

  /** Where an entry of the table comes from. */
  lemma BestAtCases(needle: string, hay: string, h: nat)
    requires needle != [] && h < |hay| && BestAt(needle, hay, h).Some?
    ensures Lower(hay[h]) == Lower(needle[|needle| - 1])
    ensures |needle| == 1 ==> BestAt(needle, hay, h) == Some(Reward(hay, None, h))
    ensures |needle| >= 2 ==>
      var (rest, alone) := (needle[..|needle| - 1], Reward(hay, None, h));
      || (h > 0 && BestAt(rest, hay, h - 1).Some?
          && BestAt(needle, hay, h) == Plus(BestAt(rest, hay, h - 1), alone + 8))
      || (BestBefore(rest, hay, h).Some? && BestAt(needle, hay, h) == Plus(BestBefore(rest, hay, h), alone)
          && (h > 0 && BestAt(rest, hay, h - 1).Some? ==>
                BestAt(rest, hay, h - 1).value + 8 < BestBefore(rest, hay, h).value))
  {
    hide Reward;
  }

  /** A match that earns what the table says. */
  lemma {:induction false} SomeEarns(needle: string, hay: string, h: nat) returns (e: seq<nat>)
    requires needle != [] && h < |hay| && BestAt(needle, hay, h).Some?
    ensures Embeds(LowerAll(needle), LowerAll(hay), e) && Within(e, |hay|)
    ensures e != [] && e[|e| - 1] == h && Bonuses(hay, e) == BestAt(needle, hay, h).value
    decreases |needle|, h
  {
    hide Embeds, Bonuses, LowerAll, Reward, BestAt, BestBefore, Within, LastOf, Lower;
    BestAtCases(needle, hay, h);
    var m := |needle| - 1;
    var before: seq<nat> := [];
    NothingMatched(hay);
    if m > 0 {
      if h > 0 && BestAt(needle, hay, h) == Plus(BestAt(needle[..m], hay, h - 1), Reward(hay, None, h) + 8)
        && BestAt(needle[..m], hay, h - 1).Some? {
        before := SomeEarns(needle[..m], hay, h - 1);
      } else {
        before := SomeEarnsBefore(needle[..m], hay, h);
        NotNextToIt(needle[..m], hay, h, before);
      }
    } else {
      assert needle[..m] == "";
    }
    OneMoreMatch(needle, hay, before, h);
    BonusesGrow(hay, before, h);
    RunReward(hay, before, h);
    e := before + [h];
  }

  lemma NothingMatched(hay: string)
    ensures Embeds(LowerAll(""), LowerAll(hay), []) && Within([], |hay|) && Bonuses(hay, []) == 0
  {
  }

  /** If coming from the adjacent place earns less, a best way before does not end there. */
  lemma NotNextToIt(needle: string, hay: string, h: nat, before: seq<nat>)
    requires needle != [] && h < |hay|
    requires Embeds(LowerAll(needle), LowerAll(hay), before) && Within(before, |hay|) && before != []
    requires BestBefore(needle, hay, h) == Some(Bonuses(hay, before))
    requires h > 0 && BestAt(needle, hay, h - 1).Some? ==>
      BestAt(needle, hay, h - 1).value + 8 < Bonuses(hay, before)
    ensures before[|before| - 1] + 1 != h
  {
    hide Embeds, Bonuses, LowerAll, BestAt, BestBefore;
    NoneEarnsMore(needle, hay, before);
  }

  lemma OneMoreMatch(needle: string, hay: string, before: seq<nat>, h: nat)
    requires needle != [] && h < |hay| && Lower(hay[h]) == Lower(needle[|needle| - 1])
    requires Embeds(LowerAll(needle[..|needle| - 1]), LowerAll(hay), before) && Within(before, |hay|)
    requires before != [] ==> before[|before| - 1] < h
    ensures Embeds(LowerAll(needle), LowerAll(hay), before + [h])
  {
    var e := before + [h];
    forall k | 0 <= k < |e| ensures e[k] < |hay| && LowerAll(hay)[e[k]] == LowerAll(needle)[k] {
      if k < |before| {
        assert LowerAll(needle[..|needle| - 1])[k] == LowerAll(needle)[k];
      }
    }
  }

  lemma {:induction false} SomeEarnsBefore(needle: string, hay: string, h: nat) returns (e: seq<nat>)
    requires needle != [] && h <= |hay| && BestBefore(needle, hay, h).Some?
    ensures Embeds(LowerAll(needle), LowerAll(hay), e) && Within(e, |hay|)
    ensures e != [] && e[|e| - 1] < h && Bonuses(hay, e) == BestBefore(needle, hay, h).value
    decreases |needle|, h
  {
    if BestBefore(needle, hay, h) == BestAt(needle, hay, h - 1) {
      e := SomeEarns(needle, hay, h - 1);
    } else {
      e := SomeEarnsBefore(needle, hay, h - 1);
    }
  }

  /** A match scores best exactly when it earns what the table says can be earned. */
  lemma ScoresBestIff(needle: string, hay: string, at: seq<nat>)
    requires needle != [] && Embeds(LowerAll(needle), LowerAll(hay), at)
    ensures Within(at, |hay|)
    ensures ScoresBest(needle, hay, at) <==> BestBefore(needle, hay, |hay|) == Some(Bonuses(hay, at))
  {
    hide Embeds, Bonuses, LowerAll, Within, BestAt, BestBefore;
    NoneEarnsMore(needle, hay, at);
    LastIsWithin(hay, at);
    BeforeCovers(needle, hay, |hay|, at[|at| - 1]);
    var best := SomeEarnsBefore(needle, hay, |hay|);
    if BestBefore(needle, hay, |hay|) == Some(Bonuses(hay, at)) {
      forall e | Embeds(LowerAll(needle), LowerAll(hay), e) ensures EarnsAtMost(hay, e, at) {
        NoneEarnsMore(needle, hay, e);
        LastIsWithin(hay, e);
        BeforeCovers(needle, hay, |hay|, e[|e| - 1]);
      }
    } else {
      assert !EarnsAtMost(hay, best, at);
    }
  }

  lemma LastIsWithin(hay: string, e: seq<nat>)
    requires Within(e, |hay|) && e != []
    ensures e[|e| - 1] < |hay|
  {
  }

  // ------------------------------------------------- a certificate in the spans

  predicate IsRun(at: seq<nat>) {
    at != [] && forall k :: 0 <= k < |at| ==> at[k] == at[0] + k
  }

  predicate StartsWord(hay: string, h: nat)
    requires h < |hay|
  {
    h == 0 || IsBoundary(hay[h - 1])
  }

  /** What the characters after the first earn at most: a run, and a boundary where the needle has one. */
  function RunWorth(needle: string): nat {
    if |needle| < 2 then 0
    else RunWorth(needle[..|needle| - 1]) + 18 + if IsBoundary(needle[|needle| - 2]) then 6 else 0
  }

  lemma BoundariesFold(c: char, d: char)
    requires Lower(c) == Lower(d)
    ensures IsBoundary(c) <==> IsBoundary(d)
  {
  }

  /** What one more character earns at most, and what it earns in a run. */
  lemma NextEarns(needle: string, hay: string, e: seq<nat>)
    requires Embeds(LowerAll(needle), LowerAll(hay), e) && |needle| >= 2
    ensures Within(e, |hay|) && |e| == |needle|
    ensures var (m, worth) := (|e| - 1, 18 + if IsBoundary(needle[|needle| - 2]) then 6 else 0);
      && Reward(hay, Some(e[m - 1]), e[m]) <= worth
      && (e[m] == e[m - 1] + 1 ==> Reward(hay, Some(e[m - 1]), e[m]) == worth)
  {
    var m := |e| - 1;
    assert e[m - 1] < e[m];
    assert LowerAll(hay)[e[m - 1]] == LowerAll(needle)[m - 1];
    BoundariesFold(hay[e[m - 1]], needle[m - 1]);
    hide IsBoundary, Lower;
  }

  lemma {:induction false} EarnsAtMostARun(needle: string, hay: string, e: seq<nat>)
    requires Embeds(LowerAll(needle), LowerAll(hay), e) && needle != []
    ensures Within(e, |hay|) && |e| == |needle|
    ensures Bonuses(hay, e) <= Reward(hay, None, e[0]) + RunWorth(needle)
    ensures IsRun(e) ==> Bonuses(hay, e) == Reward(hay, None, e[0]) + RunWorth(needle)
  {
    var m := |needle| - 1;
    PrefixEmbeds(needle, hay, e);
    if m > 0 { NextEarns(needle, hay, e); }
    NoneEarnsMore(needle, hay, e);
    hide Embeds, LowerAll, IsBoundary, BestAt, Lower, Reward;
    LastReward(hay, e);
    NothingEarned(hay);
    hide Bonuses;
    if m == 0 {
      assert e[..m] == [];
    } else {
      EarnsAtMostARun(needle[..m], hay, e[..m]);
      assert IsRun(e) ==> IsRun(e[..m]) && e[m] == e[m - 1] + 1;
    }
  }

  /** A leftmost match in one piece at the start of a word cannot be beaten. */
  lemma WordStartRunScoresBest(needle: string, hay: string, at: seq<nat>)
    requires needle != [] && Leftmost(LowerAll(needle), LowerAll(hay), at)
    requires IsRun(at) && Within(at, |hay|) && StartsWord(hay, at[0])
    ensures ScoresBest(needle, hay, at)
  {
    EarnsAtMostARun(needle, hay, at);
    forall e | Embeds(LowerAll(needle), LowerAll(hay), e) ensures EarnsAtMost(hay, e, at) {
      EarnsAtMostARun(needle, hay, e);
      assert at[0] <= e[0];
      hide Bonuses, Embeds, Leftmost;
    }
  }

  /** In particular a needle the haystack starts with, ignoring case, is matched as well as can be. */
  lemma PrefixScoresBest(needle: string, hay: string, at: seq<nat>)
    requires needle != [] && Leftmost(LowerAll(needle), LowerAll(hay), at)
    requires LowerAll(needle) <= LowerAll(hay)
    ensures Within(at, |hay|) && ScoresBest(needle, hay, at)
  {
    PrefixIsMatchedInPlace(needle, hay, at);
    WordStartRunScoresBest(needle, hay, at);
  }

  lemma PairEarns(hay: string, i: nat, j: nat)
    requires i < |hay| && j < |hay|
    ensures Bonuses(hay, [i, j]) == Reward(hay, None, i) + Reward(hay, Some(i), j)
  {
    LastReward(hay, [i, j]);
    LastReward(hay, [i]);
    NothingEarned(hay);
    assert [i, j][..1] == [i] && [i][..0] == [];
    hide Bonuses, Reward;
  }

  lemma AlreadyLower()
    ensures LowerAll("ab") == "ab" && LowerAll("a ab") == "a ab"
  {
  }

  lemma BothAreMatches()
    ensures Leftmost("ab", "a ab", [0, 3]) && Embeds("ab", "a ab", [2, 3])
  {
  }

  lemma TheWordEarnsMore()
    ensures Bonuses("a ab", [0, 3]) == 32 && Bonuses("a ab", [2, 3]) == 34
  {
    PairEarns("a ab", 0, 3);
    PairEarns("a ab", 2, 3);
    hide Bonuses;
  }

  /** "ab" in "a ab": the leftmost match is not in one piece, and earns less than the word's. */
  lemma LeftmostNeedNotScoreBest()
    ensures Leftmost(LowerAll("ab"), LowerAll("a ab"), [0, 3])
    ensures !ScoresBest("ab", "a ab", [0, 3])
    ensures Score("a ab", [0, 3]) < Score("a ab", [2, 3])
  {
    hide Embeds, LowerAll, Leftmost, Bonuses;
    AlreadyLower();
    BothAreMatches();
    TheWordEarnsMore();
    assert !EarnsAtMost("a ab", [2, 3], [0, 3]);
  }

  // ------------------------------------------------------ the score in numbers

  /** Two letters match when they are the same, or the capital and the small form of one of the 26. */
  lemma FoldingIs(c: char, d: char)
    ensures Lower(c) == Lower(d) <==>
      || c == d
      || (65 <= c as int <= 90 && d as int == c as int + 32)
      || (65 <= d as int <= 90 && c as int == d as int + 32)
  {
  }

  predicate FollowsOn(at: seq<nat>, k: nat)
    requires k < |at|
  {
    k > 0 && at[k] == at[k - 1] + 1
  }

  predicate BehindSeparator(hay: string, h: nat)
    requires h < |hay|
  {
    h > 0 && hay[h - 1] in " _-/."
  }

  /** Matched characters right behind the one matched before. */
  function Adjacent(at: seq<nat>): set<nat> {
    set k: nat | k < |at| && FollowsOn(at, k)
  }

  /** Matched characters that stand right behind one of the five that separate words. */
  function AfterSeparators(hay: string, at: seq<nat>): set<nat>
    requires Within(at, |hay|)
  {
    set k: nat | k < |at| && BehindSeparator(hay, at[k])
  }

  function AtTheFront(at: seq<nat>): set<nat> {
    set k: nat | k < |at| && at[k] == 0
  }

  lemma OneMoreAdjacent(at: seq<nat>, h: nat)
    ensures |Adjacent(at + [h])| == |Adjacent(at)| + if at != [] && h == at[|at| - 1] + 1 then 1 else 0
  {
    var all := at + [h];
    assert forall k: nat :: k < |at| ==> FollowsOn(all, k) == FollowsOn(at, k);
    assert FollowsOn(all, |at|) <==> at != [] && h == at[|at| - 1] + 1;
    hide FollowsOn;
    OneLarger(Adjacent(at), Adjacent(all), |at|, FollowsOn(all, |at|));
  }

  lemma OneMoreBehind(hay: string, at: seq<nat>, h: nat)
    requires Within(at, |hay|) && h < |hay|
    ensures Within(at + [h], |hay|)
    ensures |AtTheFront(at + [h])| == |AtTheFront(at)| + if h == 0 then 1 else 0
    ensures |AfterSeparators(hay, at + [h])|
      == |AfterSeparators(hay, at)| + if BehindSeparator(hay, h) then 1 else 0
  {
    hide BehindSeparator;
    OneLarger(AtTheFront(at), AtTheFront(at + [h]), |at|, h == 0);
    OneLarger(AfterSeparators(hay, at), AfterSeparators(hay, at + [h]), |at|, BehindSeparator(hay, h));
  }

  lemma RewardIs(hay: string, at: seq<nat>, h: nat)
    requires h < |hay|
    ensures Reward(hay, LastOf(at), h)
      == 10 + (if at != [] && h == at[|at| - 1] + 1 then 8 else 0) + (if h == 0 then 12 else 0)
         + if BehindSeparator(hay, h) then 6 else 0
  {
  }

  lemma {:induction false} BonusesCounted(hay: string, at: seq<nat>)
    requires Within(at, |hay|)
    ensures Bonuses(hay, at)
      == 10 * |at| + 8 * |Adjacent(at)| + 12 * |AtTheFront(at)| + 6 * |AfterSeparators(hay, at)|
  {
    if at == [] {
      NothingEarned(hay);
    } else {
      var (before, h) := (at[..|at| - 1], at[|at| - 1]);
      assert at == before + [h];
      BonusesCounted(hay, before);
      RewardIs(hay, before, h);
      OneMoreAdjacent(before, h);
      OneMoreBehind(hay, before, h);
      LastReward(hay, at);
      hide Bonuses, Reward, LastOf, Adjacent, AtTheFront, AfterSeparators, BehindSeparator;
    }
  }

  /**
    Ten points a character, eight for each that follows the one before, twelve for the front of the text, six for
    each behind a separator; and a point off for every four characters left unmatched.
   */
  lemma ScoreCounted(needle: string, hay: string, m: FuzzyMatch)
    requires Matches(needle, hay, m)
    ensures needle == "" ==> m.score == 0
    ensures needle != "" ==>
      m.score == 10 * |needle| + 8 * |Adjacent(m.spans)| + 12 * |AtTheFront(m.spans)|
                 + 6 * |AfterSeparators(hay, m.spans)| - (|hay| - |needle|) / 4
  {
    BonusesCounted(hay, m.spans);
    hide Bonuses, Adjacent, AtTheFront, AfterSeparators;
  }
}
