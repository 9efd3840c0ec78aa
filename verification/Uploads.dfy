/**
  Which listed videos of a followed channel are new: a watermark per channel, and the rule
  that leaves out broadcasts the recorder captured live.  Times are in nanoseconds.
 */
module Uploads {
  import opened Wrappers
  import opened Sequences

  const NANOS_PER_MINUTE := 60_000_000_000
  const BROADCAST_MATCH_PAD := 30 * NANOS_PER_MINUTE

  // The longest span the calendar library can hold: 2^63 - 1 milliseconds.
  const LONGEST_SPAN := 9_223_372_036_854_775_807 * 1_000_000

  datatype PlatformKind = Twitch | YouTube | Patreon

  datatype VodKind = Upload | LiveBroadcast

  datatype VodEntry = VodEntry(
    id: string,
    platform: PlatformKind,
    channelId: string,
    publishedAt: Option<int>,
    duration: Option<nat>,
    url: string,
    kind: VodKind)

  function PlatformName(p: PlatformKind): string {
    match p
    case Twitch => "Twitch"
    case YouTube => "YouTube"
    case Patreon => "Patreon"
  }

  function WatermarkKey(p: PlatformKind, channelId: string): string {
    PlatformName(p) + ":" + channelId
  }

  /** Channels of different platforms, or with different ids, never share a watermark. */
  lemma WatermarkKeysDiffer(p: PlatformKind, c: string, q: PlatformKind, d: string)
    requires WatermarkKey(p, c) == WatermarkKey(q, d)
    ensures p == q && c == d
  {
    assert WatermarkKey(p, c)[0] == PlatformName(p)[0];
    assert WatermarkKey(q, d)[0] == PlatformName(q)[0];
    var n := |PlatformName(p)| + 1;
    assert WatermarkKey(p, c)[n..] == c && WatermarkKey(q, d)[n..] == d;
  }

  function BroadcastWasCaptured(vod: VodEntry, starts: seq<int>): bool {
    vod.publishedAt.Some?
    && var published := vod.publishedAt.value;
    var duration := if vod.duration.Some? && vod.duration.value <= LONGEST_SPAN then vod.duration.value else 0;
    exists i :: 0 <= i < |starts| &&
      published - BROADCAST_MATCH_PAD <= starts[i] <= published + duration + BROADCAST_MATCH_PAD
  }

  predicate IsNew(vod: VodEntry, watermark: int, starts: seq<int>) {
    && vod.publishedAt.Some? && vod.publishedAt.value > watermark
    && !(vod.kind.LiveBroadcast? && BroadcastWasCaptured(vod, starts))
  }

  function NewAmong(vods: seq<VodEntry>, watermark: int, starts: seq<int>): seq<VodEntry> {
    if vods == [] then []
    else
      (if IsNew(vods[0], watermark, starts) then [vods[0]] else []) + NewAmong(vods[1..], watermark, starts)
  }

  function SelectNewUploads(vods: seq<VodEntry>, watermark: Option<int>, starts: seq<int>): seq<VodEntry> {
    if watermark.None? then [] else NewAmong(vods, watermark.value, starts)
  }

  /** The newest publication time listed. */
  function Newest(vods: seq<VodEntry>): Option<int> {
    if vods == [] then None
    else
      var rest := Newest(vods[1..]);
      match vods[0].publishedAt
      case None => rest
      case Some(t) => if rest.Some? && rest.value >= t then rest else Some(t)
  }

  /** The watermark to store, if there is anything to change. */
  function NextWatermark(vods: seq<VodEntry>, current: Option<int>, now: int): Option<int> {
    match (current, Newest(vods))
    case (Some(cur), Some(n)) => if n > cur then Some(n) else None
    case (Some(_), None) => None
    case (None, Some(n)) => Some(n)
    case (None, None) => Some(now)
  }

  function Advanced(vods: seq<VodEntry>, current: Option<int>, now: int): Option<int> {
    var next := NextWatermark(vods, current, now);
    if next.Some? then next else current
  }

  /** Exactly the new entries are selected, as often as they are listed. */
  lemma {:induction false} SelectionIsExact(vods: seq<VodEntry>, watermark: int, starts: seq<int>, v: VodEntry)
    ensures multiset(NewAmong(vods, watermark, starts))[v]
      == if IsNew(v, watermark, starts) then multiset(vods)[v] else 0
  {
    if vods != [] {
      SelectionIsExact(vods[1..], watermark, starts, v);
      assert vods == [vods[0]] + vods[1..];
      hide IsNew;
    }
  }

  lemma OneMoreListed(v: VodEntry, rest: seq<VodEntry>, watermark: int, starts: seq<int>)
    ensures NewAmong([v] + rest, watermark, starts)
      == (if IsNew(v, watermark, starts) then [v] else []) + NewAmong(rest, watermark, starts)
  {
    assert ([v] + rest)[1..] == rest;
    hide IsNew;
  }

  lemma {:induction false} SelectionSplits(a: seq<VodEntry>, b: seq<VodEntry>, watermark: int, starts: seq<int>)
    ensures NewAmong(a + b, watermark, starts) == NewAmong(a, watermark, starts) + NewAmong(b, watermark, starts)
  {
    if a == [] {
      assert a + b == b;
    } else {
      var v, rest := a[0], a[1..];
      OneMoreListed(v, rest + b, watermark, starts);
      OneMoreListed(v, rest, watermark, starts);
      hide IsNew, NewAmong;
      assert a == [v] + rest;
      Associates([v], rest, b);
      SelectionSplits(rest, b, watermark, starts);
      Associates(if IsNew(v, watermark, starts) then [v] else [], NewAmong(rest, watermark, starts),
                 NewAmong(b, watermark, starts));
    }
  }

  /** The places in a listing that hold a new entry. */
  function NewPlaces(vods: seq<VodEntry>, watermark: int, starts: seq<int>): seq<nat> {
    if vods == [] then []
    else
      var last := |vods| - 1;
      NewPlaces(vods[..last], watermark, starts) + if IsNew(vods[last], watermark, starts) then [last] else []
  }

  /** The selection is the listing read at the places of its new entries, from the front to the back. */
  lemma {:induction false} SelectionKeepsOrder(vods: seq<VodEntry>, watermark: int, starts: seq<int>)
    ensures var (at, selected) := (NewPlaces(vods, watermark, starts), NewAmong(vods, watermark, starts));
      && |at| == |selected|
      && (forall k :: 0 <= k < |at| ==> at[k] < |vods| && selected[k] == vods[at[k]])
      && (forall k, l :: 0 <= k < l < |at| ==> at[k] < at[l])
      && (forall i: nat :: i in at <==> i < |vods| && IsNew(vods[i], watermark, starts))
  {
    if vods != [] {
      var before, last := vods[..|vods| - 1], vods[|vods| - 1];
      assert vods == before + [last];
      SelectionKeepsOrder(before, watermark, starts);
      SelectionSplits(before, [last], watermark, starts);
      assert NewAmong([last], watermark, starts) == if IsNew(last, watermark, starts) then [last] else [];
      hide IsNew, NewAmong;
    }
  }

  lemma SelectedMeansNew(vods: seq<VodEntry>, watermark: int, starts: seq<int>, v: VodEntry)
    ensures v in NewAmong(vods, watermark, starts) <==> v in vods && IsNew(v, watermark, starts)
  {
  }

  predicate Listed(vods: seq<VodEntry>, t: int) {
    exists i :: 0 <= i < |vods| && vods[i].publishedAt == Some(t)
  }

  lemma {:induction false} NewestIsMaximum(vods: seq<VodEntry>)
    ensures Newest(vods).Some? ==> Listed(vods, Newest(vods).value)
    ensures forall t :: Listed(vods, t) ==> Newest(vods).Some? && t <= Newest(vods).value
  {
    if vods != [] {
      var rest := vods[1..];
      NewestIsMaximum(rest);
      if Newest(rest).Some? {
        var i :| 0 <= i < |rest| && rest[i].publishedAt == Newest(rest);
        assert vods[i + 1].publishedAt == Newest(rest);
      }
      forall t | Listed(vods, t) ensures Newest(vods).Some? && t <= Newest(vods).value {
        var i :| 0 <= i < |vods| && vods[i].publishedAt == Some(t);
        if i > 0 {
          assert rest[i - 1].publishedAt == Some(t);
          assert Listed(rest, t);
        }
      }
    }
  }

  // Any number of checks of one opted-in channel.

  /** One check: the listing could not be fetched, or was, at this time and with these captures known. */
  datatype Check = Missed | Fetched(vods: seq<VodEntry>, starts: seq<int>, now: int)

  function WatermarkAfter(checks: seq<Check>): Option<int> {
    if checks == [] then None
    else
      var (before, c) := (WatermarkAfter(checks[..|checks| - 1]), checks[|checks| - 1]);
      if c.Missed? then before else Advanced(c.vods, before, c.now)
  }

  /** What check number i selects. */
  function SelectedBy(checks: seq<Check>, i: nat): seq<VodEntry>
    requires i < |checks|
  {
    if checks[i].Missed? then []
    else SelectNewUploads(checks[i].vods, WatermarkAfter(checks[..i]), checks[i].starts)
  }

  /** No listing has been seen yet. */
  predicate IsFirst(checks: seq<Check>) {
    forall i :: 0 <= i < |checks| ==> checks[i].Missed?
  }

  /** Times the first `n` checks have seen: publication times listed, and the clock at an undated first listing. */
  ghost predicate Seen(checks: seq<Check>, t: int) {
    exists i :: 0 <= i < |checks| && SeenIn(checks, i, t)
  }

  predicate SeenIn(checks: seq<Check>, i: nat, t: int)
    requires i < |checks|
  {
    && checks[i].Fetched?
    && (Listed(checks[i].vods, t)
        || (IsFirst(checks[..i]) && Newest(checks[i].vods).None? && t == checks[i].now))
  }

  lemma SeenGrows(checks: seq<Check>, c: Check, t: int)
    ensures Seen(checks + [c], t) <==> Seen(checks, t) || SeenIn(checks + [c], |checks|, t)
  {
    var all := checks + [c];
    hide IsFirst, Listed, Newest;
    forall i | 0 <= i < |checks| ensures SeenIn(checks, i, t) == SeenIn(all, i, t) {
      assert checks[..i] == all[..i];
    }
  }

  lemma MaximumGrows(checks: seq<Check>, c: Check, before: Option<int>)
    requires before.None? <==> IsFirst(checks)
    requires before.Some? ==> Seen(checks, before.value)
    requires forall t :: Seen(checks, t) ==> before.Some? && t <= before.value
    ensures var after := if c.Missed? then before else Advanced(c.vods, before, c.now);
      && (after.None? <==> IsFirst(checks + [c]))
      && (after.Some? ==> Seen(checks + [c], after.value))
      && (forall t :: Seen(checks + [c], t) ==> after.Some? && t <= after.value)
      && (before.Some? ==> after.Some? && before.value <= after.value)
  {
    var all := checks + [c];
    var after := if c.Missed? then before else Advanced(c.vods, before, c.now);
    assert all[..|checks|] == checks;
    assert IsFirst(all) <==> IsFirst(checks) && c.Missed? by {
      assert forall i :: 0 <= i < |checks| ==> all[i] == checks[i];
      assert all[|checks|] == c;
    }
    if c.Fetched? { NewestIsMaximum(c.vods); }
    hide IsFirst, Listed, Newest, Seen;
    if after.Some? {
      SeenGrows(checks, c, after.value);
    }
    forall t | Seen(all, t) ensures after.Some? && t <= after.value {
      SeenGrows(checks, c, t);
    }
  }

  /** The watermark is the newest time seen in any check so far. */
  lemma {:induction false} WatermarkIsNewestSeen(checks: seq<Check>)
    ensures WatermarkAfter(checks).None? <==> IsFirst(checks)
    ensures WatermarkAfter(checks).Some? ==> Seen(checks, WatermarkAfter(checks).value)
    ensures forall t :: Seen(checks, t) ==> WatermarkAfter(checks).Some? && t <= WatermarkAfter(checks).value
  {
    if checks != [] {
      var before := checks[..|checks| - 1];
      WatermarkIsNewestSeen(before);
      hide IsFirst, Seen, Advanced;
      MaximumGrows(before, checks[|checks| - 1], WatermarkAfter(before));
      assert before + [checks[|checks| - 1]] == checks;
    }
  }

  /** It never moves back, whatever is fetched or missed. */
  lemma {:induction false} WatermarkNeverDecreases(checks: seq<Check>, i: nat, j: nat)
    requires i <= j <= |checks| && WatermarkAfter(checks[..i]).Some?
    ensures WatermarkAfter(checks[..j]).Some?
    ensures WatermarkAfter(checks[..i]).value <= WatermarkAfter(checks[..j]).value
  {
    if i < j {
      WatermarkNeverDecreases(checks, i, j - 1);
      assert checks[..j][..j - 1] == checks[..j - 1];
    }
  }

  /** The first listing selects nothing; a later one selects exactly what is newer than all seen before. */
  lemma EachCheckSelectsTheNews(checks: seq<Check>, i: nat, v: VodEntry)
    requires i < |checks|
    ensures v in SelectedBy(checks, i) <==>
      && checks[i].Fetched? && v in checks[i].vods
      && !IsFirst(checks[..i])
      && v.publishedAt.Some? && (forall t :: Seen(checks[..i], t) ==> t < v.publishedAt.value)
      && !(v.kind.LiveBroadcast? && BroadcastWasCaptured(v, checks[i].starts))
  {
    WatermarkIsNewestSeen(checks[..i]);
    hide BroadcastWasCaptured, Seen, IsFirst;
    var w := WatermarkAfter(checks[..i]);
    if checks[i].Fetched? && w.Some? {
      SelectedMeansNew(checks[i].vods, w.value, checks[i].starts, v);
      assert Seen(checks[..i], w.value);
      assert v.publishedAt.Some? ==>
        (v.publishedAt.value > w.value <==> forall t :: Seen(checks[..i], t) ==> t < v.publishedAt.value);
    }
  }

  /** What a later check selects was published after everything an earlier one selected: nothing comes twice. */
  lemma NothingIsSelectedTwice(checks: seq<Check>, i: nat, j: nat, u: VodEntry, v: VodEntry)
    requires i < j < |checks| && u in SelectedBy(checks, i) && v in SelectedBy(checks, j)
    ensures u.publishedAt.Some? && v.publishedAt.Some? && u.publishedAt.value < v.publishedAt.value
    ensures u != v
  {
    EachCheckSelectsTheNews(checks, i, u);
    EachCheckSelectsTheNews(checks, j, v);
    hide BroadcastWasCaptured, IsFirst, Newest, SelectedBy, WatermarkAfter;
    var t := u.publishedAt.value;
    var k :| 0 <= k < |checks[i].vods| && checks[i].vods[k] == u;
    assert Listed(checks[i].vods, t);
    assert checks[..j][i] == checks[i];
    assert SeenIn(checks[..j], i, t);
    assert Seen(checks[..j], t);
  }

  /** A video first listed after a newer one has been seen is never selected. */
  lemma LateListingIsNeverSelected(checks: seq<Check>, i: nat, v: VodEntry, t: int)
    requires i < |checks| && Seen(checks[..i], t)
    requires v.publishedAt.Some? && v.publishedAt.value <= t
    ensures v !in SelectedBy(checks, i)
  {
    EachCheckSelectsTheNews(checks, i, v);
  }
}
