/**
  Which selected videos are sent to be downloaded, over any number of checks of the whole list:
  the watermark lets a video through once, so the check that selects it is its only chance.
 */
module UploadsSent {
  import opened Wrappers
  import opened Uploads
  import opened UploadMonitor

  function PickedIn(rounds: seq<Round>, k: nat): seq<VodEntry>
    requires k < |rounds|
  {
    MemoryAfter(rounds[..k]).Picked(rounds[k])
  }

  function SentIn(rounds: seq<Round>, k: nat): seq<string>
    requires k < |rounds|
  {
    MemoryAfter(rounds[..k]).ReportOf(rounds[k]).sent
  }

  function BusyIn(rounds: seq<Round>, k: nat): set<string>
    requires k < |rounds|
  {
    MemoryAfter(rounds[..k]).Busy(rounds[k])
  }

  function KeyOf(v: VodEntry): string {
    WatermarkKey(v.platform, v.channelId)
  }

  /** From check a up to, but not including, check b the channel is never left out. */
  predicate StaysOptedIn(key: string, rounds: seq<Round>, a: nat, b: nat)
    requires b <= |rounds|
  {
    forall k :: a <= k < b ==> OptedIn(key, rounds[k])
  }

  ghost predicate ListOwnVideos(rounds: seq<Round>, a: nat, b: nat)
    requires b <= |rounds|
  {
    forall k :: a <= k < b ==> rounds[k].ListsOwnVideos()
  }

  /** A url is sent in a check when it is not busy and some selected video with it is not recorded yet. */
  lemma SentIff(rounds: seq<Round>, k: nat, url: string)
    requires k < |rounds|
    ensures url in SentIn(rounds, k) <==>
      && url !in BusyIn(rounds, k)
      && exists v :: v in PickedIn(rounds, k) && v.url == url && rounds[k].world.recorded(v) == Some(false)
  {
    var (m, r) := (MemoryAfter(rounds[..k]), rounds[k]);
    QueueIsRight(m.Picked(r), InFlight(r.world.Jobs()), m.Waiting(r).Keys, r.world);
    hide MemoryAfter, Memory.Waiting, PickedUpTo, Queue, InFlight, Round.Opted, KeysOf, Retained;
  }

  lemma {:induction false} PickedSomewhere(w: map<string, int>, opted: seq<ChannelEntry>, world: World, n: nat,
                                            v: VodEntry) returns (i: nat)
    requires n <= |opted| && v in PickedUpTo(w, opted, world, n)
    ensures i < n && v in PickedOn(Progressed(w, opted, world, i), opted[i], world, i)
  {
    hide Progressed, PickedOn;
    if v in PickedOn(Progressed(w, opted, world, n - 1), opted[n - 1], world, n - 1) {
      i := n - 1;
    } else {
      i := PickedSomewhere(w, opted, world, n - 1, v);
    }
  }

  lemma PickedMeansListed(w: map<string, int>, c: ChannelEntry, world: World, i: nat, v: VodEntry)
    requires v in PickedOn(w, c, world, i)
    ensures world.listing(i).Some? && v in world.listing(i).value
  {
    SelectedMeansNew(world.listing(i).value, Get(w, c.Key()).value, CapturedStarts(world.Jobs(), c), v);
  }

  /** A picked video was picked at some position of the opted-in channels, and that is its own channel's. */
  lemma PickedAt(m: Memory, r: Round, v: VodEntry) returns (i: nat)
    requires r.ListsOwnVideos() && v in m.Picked(r)
    ensures r.Checks() && i < |r.Opted()| && r.Opted()[i].Key() == KeyOf(v)
    ensures v in PickedOn(Progressed(m.Kept(r), r.Opted(), r.world, i), r.Opted()[i], r.world, i)
  {
    hide Progressed, PickedOn, PickedUpTo, Memory.Kept, Round.Opted;
    i := PickedSomewhere(m.Kept(r), r.Opted(), r.world, |r.Opted()|, v);
    PickedMeansListed(Progressed(m.Kept(r), r.Opted(), r.world, i), r.Opted()[i], r.world, i, v);
  }

  lemma {:induction false} ChecksInGrow(key: string, opted: seq<ChannelEntry>, world: World, i: nat, n: nat)
    requires i <= n <= |opted|
    ensures ChecksIn(key, opted, world, i) <= ChecksIn(key, opted, world, n)
  {
    if i < n {
      ChecksInGrow(key, opted, world, i, n - 1);
      hide CheckAt;
    }
  }

  lemma ChecksSinceGrowOnce(key: string, rounds: seq<Round>, k: nat)
    requires k < |rounds| && OptedIn(key, rounds[k])
    ensures ChecksSince(key, rounds[..k + 1]) == ChecksSince(key, rounds[..k]) + ChecksOfRound(key, rounds[k])
  {
    assert rounds[..k + 1][..k] == rounds[..k];
    hide OptedIn, ChecksOfRound;
  }

  /** As long as a channel stays opted in, its checks only pile up. */
  lemma {:induction false} ChecksSinceGrow(key: string, rounds: seq<Round>, k: nat, b: nat)
    requires k <= b <= |rounds| && StaysOptedIn(key, rounds, k, b)
    ensures ChecksSince(key, rounds[..k]) <= ChecksSince(key, rounds[..b])
  {
    if k < b {
      ChecksSinceGrow(key, rounds, k, b - 1);
      ChecksSinceGrowOnce(key, rounds, b - 1);
      hide ChecksSince, ChecksOfRound, OptedIn;
    }
  }

  /** What a check selects depends on the checks before it alone. */
  lemma LastStillSelects(checks: seq<Check>, more: seq<Check>, all: seq<Check>, v: VodEntry)
    requires checks != [] && checks <= more <= all && v in SelectedBy(checks, |checks| - 1)
    ensures |checks| <= |more| <= |all| && v in SelectedBy(all, |checks| - 1)
  {
    assert checks[..|checks| - 1] == all[..|checks| - 1];
  }

  /** The checks up to a position of a round are some of those made when the round is over. */
  lemma ChecksUpToGrow(rounds: seq<Round>, k: nat, i: nat, key: string)
    requires k < |rounds| && rounds[k].Checks() && i < |rounds[k].Opted()| && rounds[k].Opted()[i].Key() == key
    ensures |ChecksSince(key, rounds[..k])| < |ChecksUpTo(rounds[..k], rounds[k], i)|
    ensures ChecksUpTo(rounds[..k], rounds[k], i) <= ChecksSince(key, rounds[..k + 1])
  {
    var r := rounds[k];
    ChecksInGrow(key, r.Opted(), r.world, i + 1, |r.Opted()|);
    assert |ChecksIn(key, r.Opted(), r.world, i + 1)| > 0;
    assert OptedIn(key, r);
    ChecksSinceGrowOnce(key, rounds, k);
    hide ChecksIn, ChecksSince, Round.Opted, OptedIn, Round.Checks;
  }

  /** Check number c of v's channel, one of those of round k, selects v. */
  ghost predicate SelectedInRound(rounds: seq<Round>, k: nat, b: nat, v: VodEntry, c: nat)
    requires k < b <= |rounds|
  {
    var (key, all) := (KeyOf(v), ChecksSince(KeyOf(v), rounds[..b]));
    && |ChecksSince(key, rounds[..k])| <= c < |ChecksSince(key, rounds[..k + 1])| <= |all|
    && v in SelectedBy(all, c)
  }

  lemma PickedBySomeCheck(past: seq<Round>, r: Round, v: VodEntry) returns (i: nat)
    requires r.ListsOwnVideos() && v in MemoryAfter(past).Picked(r)
    ensures r.Checks() && i < |r.Opted()| && r.Opted()[i].Key() == KeyOf(v)
    ensures ChecksUpTo(past, r, i) != [] && v in SelectedBy(ChecksUpTo(past, r, i), |ChecksUpTo(past, r, i)| - 1)
  {
    hide *;
    i := PickedAt(MemoryAfter(past), r, v);
    RoundIsOneCheck(past, r, i);
  }

  /** These checks of v's channel, the latest of them made in round k, end with one that selects v. */
  ghost predicate EndsByPicking(rounds: seq<Round>, k: nat, v: VodEntry, upTo: seq<Check>)
    requires k < |rounds|
  {
    && |ChecksSince(KeyOf(v), rounds[..k])| < |upTo| && upTo <= ChecksSince(KeyOf(v), rounds[..k + 1])
    && v in SelectedBy(upTo, |upTo| - 1)
  }

  lemma PickedByTheRound(rounds: seq<Round>, k: nat, v: VodEntry) returns (upTo: seq<Check>)
    requires k < |rounds| && rounds[k].ListsOwnVideos() && v in PickedIn(rounds, k)
    ensures EndsByPicking(rounds, k, v, upTo)
  {
    hide Round.ListsOwnVideos, MemoryAfter, Memory.Picked, Round.Checks, Round.Opted, ChecksUpTo, ChecksSince,
      SelectedBy, KeyOf;
    var i := PickedBySomeCheck(rounds[..k], rounds[k], v);
    ChecksUpToGrow(rounds, k, i, KeyOf(v));
    upTo := ChecksUpTo(rounds[..k], rounds[k], i);
  }

  /** That check counts among those of its channel for as long as the channel stays opted in. */
  lemma PickedByItsChannel(rounds: seq<Round>, k: nat, b: nat, v: VodEntry) returns (c: nat)
    requires k < b <= |rounds| && StaysOptedIn(KeyOf(v), rounds, k + 1, b) && rounds[k].ListsOwnVideos()
    requires v in PickedIn(rounds, k)
    ensures SelectedInRound(rounds, k, b, v, c)
  {
    hide PickedIn, Round.ListsOwnVideos, ChecksSince, SelectedBy, StaysOptedIn, KeyOf;
    var upTo := PickedByTheRound(rounds, k, v);
    ChecksSinceGrow(KeyOf(v), rounds, k + 1, b);
    c := |upTo| - 1;
    LastStillSelects(upTo, ChecksSince(KeyOf(v), rounds[..k + 1]), ChecksSince(KeyOf(v), rounds[..b]), v);
  }

  lemma SelectedInOneRound(rounds: seq<Round>, j: nat, k: nat, b: nat, v: VodEntry, c: nat, d: nat)
    requires j < k < b <= |rounds| && StaysOptedIn(KeyOf(v), rounds, j + 1, k)
    requires SelectedInRound(rounds, j, b, v, c)
    ensures !SelectedInRound(rounds, k, b, v, d)
  {
    ChecksSinceGrow(KeyOf(v), rounds, j + 1, k);
    hide ChecksSince, SelectedBy, StaysOptedIn, KeyOf;
    if SelectedInRound(rounds, k, b, v, d) {
      NothingIsSelectedTwice(ChecksSince(KeyOf(v), rounds[..b]), c, d, v, v);
    }
  }

  /** While its channel stays opted in, a video picked in one check is picked in no other. */
  lemma PickedOnce(rounds: seq<Round>, a: nat, b: nat, j: nat, k: nat, v: VodEntry)
    requires a <= j < k < b <= |rounds| && StaysOptedIn(KeyOf(v), rounds, a, b) && ListOwnVideos(rounds, a, b)
    requires v in PickedIn(rounds, j)
    ensures v !in PickedIn(rounds, k)
  {
    hide SelectedInRound, PickedIn, OptedIn, KeyOf, Round.ListsOwnVideos;
    if v in PickedIn(rounds, k) {
      var c := PickedByItsChannel(rounds, j, b, v);
      var d := PickedByItsChannel(rounds, k, b, v);
      SelectedInOneRound(rounds, j, k, b, v, c, d);
    }
  }

  /** No other video picked in these checks has the url of v. */
  ghost predicate OwnsItsUrl(v: VodEntry, rounds: seq<Round>, a: nat, b: nat)
    requires b <= |rounds|
  {
    forall k, u :: a <= k < b && u in PickedIn(rounds, k) && u.url == v.url ==> u == v
  }

  /**
    A picked video is ever sent, in any check while its channel stays opted in, exactly when the check that
    picks it finds its url free and the lookup answers that it is not recorded.  A failed lookup loses it.
   */
  lemma EverSentIff(rounds: seq<Round>, a: nat, b: nat, k: nat, v: VodEntry)
    requires a <= k < b <= |rounds| && StaysOptedIn(KeyOf(v), rounds, a, b) && ListOwnVideos(rounds, a, b)
    requires v in PickedIn(rounds, k) && OwnsItsUrl(v, rounds, a, b)
    ensures (exists j :: a <= j < b && v.url in SentIn(rounds, j))
      <==> v.url !in BusyIn(rounds, k) && rounds[k].world.recorded(v) == Some(false)
  {
    hide PickedIn, SentIn, BusyIn, KeyOf, ListOwnVideos;
    SentIff(rounds, k, v.url);
    if j :| a <= j < b && v.url in SentIn(rounds, j) {
      SentIff(rounds, j, v.url);
      if j < k { PickedOnce(rounds, a, b, j, k, v); }
      if k < j { PickedOnce(rounds, a, b, k, j, v); }
    }
  }

  const CHANNEL := ChannelEntry("c", Twitch, true, false)
  const OLD := VodEntry("a", Twitch, "c", Some(1), None, "a", Upload)
  const NEW := VodEntry("b", Twitch, "c", Some(2), None, "b", Upload)

  /** Channel c lists these videos, and every lookup has this answer. */
  function Answers(vods: seq<VodEntry>, recorded: Option<bool>): Round {
    Round([CHANNEL], World(true, None, _ => Some(vods), _ => recorded, 0, _ => 0, _ => 0))
  }

  lemma AnswersOfOne(m: Memory, vods: seq<VodEntry>, recorded: Option<bool>)
    ensures var r := Answers(vods, recorded);
      && r.Opted() == [CHANNEL] && r.Checks()
      && m.Picked(r) == SelectNewUploads(vods, Get(m.watermarks, CHANNEL.Key()), [])
  {
    var r := Answers(vods, recorded);
    assert [CHANNEL][1..] == [];
    assert OptedInAmong([]) == [];
    assert r.Opted() == [CHANNEL];
    assert Get(m.Kept(r), CHANNEL.Key()) == Get(m.watermarks, CHANNEL.Key());
    assert PickedUpTo(m.Kept(r), r.Opted(), r.world, 0) == [];
  }

  lemma FirstListing(recorded: Option<bool>)
    ensures Get(MemoryAfter([]).After(Answers([OLD], recorded)).watermarks, CHANNEL.Key()) == Some(1)
  {
    var (m, r) := (MemoryAfter([]), Answers([OLD], recorded));
    AnswersOfOne(m, [OLD], recorded);
    assert [OLD][1..] == [];
    assert Newest([OLD]) == Some(1) by { assert Newest([]) == None; }
    assert Progressed(m.Kept(r), r.Opted(), r.world, 0) == m.Kept(r) == map[];
    assert Progressed(m.Kept(r), r.Opted(), r.world, 1) == map[CHANNEL.Key() := 1];
  }

  /** A first listing, a failed lookup for a new video, and then the same listing n times with lookups that work. */
  function OneFailedLookup(n: nat): seq<Round> {
    [Answers([OLD], Some(false)), Answers([OLD, NEW], None)] + seq(n, _ => Answers([OLD, NEW], Some(false)))
  }

  lemma RoundAt(n: nat, j: nat)
    requires j < n + 2
    ensures |OneFailedLookup(n)| == n + 2
    ensures OneFailedLookup(n)[j] == Answers(if j == 0 then [OLD] else [OLD, NEW], if j == 1 then None else Some(false))
  {
  }

  lemma AnswersKeepTheirVideos(m: Memory, vods: seq<VodEntry>, recorded: Option<bool>, u: VodEntry)
    requires vods == [OLD] || vods == [OLD, NEW]
    ensures OptedIn(KeyOf(NEW), Answers(vods, recorded)) && Answers(vods, recorded).ListsOwnVideos()
    ensures u in m.Picked(Answers(vods, recorded)) && u.url == NEW.url ==> u == NEW
  {
    AnswersOfOne(m, vods, recorded);
    ChannelCIsAsked(vods, recorded);
    var w := Get(m.watermarks, CHANNEL.Key());
    hide *;
    if u in m.Picked(Answers(vods, recorded)) {
      OnlyListedArePicked(vods, w, u);
      OneVideoHasTheUrl(vods, u);
    }
  }

  lemma OnlyListedArePicked(vods: seq<VodEntry>, w: Option<int>, u: VodEntry)
    requires u in SelectNewUploads(vods, w, [])
    ensures u in vods
  {
    if w.Some? {
      SelectedMeansNew(vods, w.value, [], u);
    }
    hide NewAmong;
  }

  lemma OneVideoHasTheUrl(vods: seq<VodEntry>, u: VodEntry)
    requires vods == [OLD] || vods == [OLD, NEW]
    ensures u in vods && u.url == NEW.url ==> u == NEW
  {
  }

  lemma ChannelCIsAsked(vods: seq<VodEntry>, recorded: Option<bool>)
    requires vods == [OLD] || vods == [OLD, NEW]
    ensures OptedIn(KeyOf(NEW), Answers(vods, recorded)) && Answers(vods, recorded).ListsOwnVideos()
  {
    AnswersOfOne(Memory(map[], map[]), vods, recorded);
    assert CHANNEL in [CHANNEL];
    hide OptedInAmong, Memory.Picked, Get, NewAmong;
  }

  lemma SecondListingPicks(n: nat)
    ensures NEW in PickedIn(OneFailedLookup(n), 1)
  {
    var rounds := OneFailedLookup(n);
    var first := Answers([OLD], Some(false));
    assert rounds[..1] == [first];
    assert MemoryAfter([first]) == MemoryAfter([]).After(first) by { assert [first][..0] == []; }
    FirstListing(Some(false));
    AnswersOfOne(MemoryAfter([first]), [OLD, NEW], None);
    SelectedMeansNew([OLD, NEW], 1, [], NEW);
    RoundAt(n, 1);
    hide MemoryAfter, Memory.Picked, Memory.After, NewAmong, OneFailedLookup, Answers, Get;
  }

  lemma RoundKeepsItsVideos(n: nat, j: nat, u: VodEntry)
    requires j < |OneFailedLookup(n)|
    ensures OptedIn(KeyOf(NEW), OneFailedLookup(n)[j]) && OneFailedLookup(n)[j].ListsOwnVideos()
    ensures u in PickedIn(OneFailedLookup(n), j) && u.url == NEW.url ==> u == NEW
  {
    assert |OneFailedLookup(n)| == n + 2;
    hide OneFailedLookup, Answers, MemoryAfter, Memory.Picked, KeyOf, OptedIn, Round.ListsOwnVideos;
    RoundAt(n, j);
    var (vods, recorded) := (if j == 0 then [OLD] else [OLD, NEW], if j == 1 then None else Some(false));
    AnswersKeepTheirVideos(MemoryAfter(OneFailedLookup(n)[..j]), vods, recorded, u);
  }

  lemma RoundsKeepTheirVideos(n: nat)
    ensures var rounds := OneFailedLookup(n);
      && StaysOptedIn(KeyOf(NEW), rounds, 0, |rounds|)
      && ListOwnVideos(rounds, 0, |rounds|)
      && OwnsItsUrl(NEW, rounds, 0, |rounds|)
  {
    hide OneFailedLookup, KeyOf, OptedIn, Round.ListsOwnVideos, PickedIn;
    forall j, u | 0 <= j < |OneFailedLookup(n)|
      ensures OptedIn(KeyOf(NEW), OneFailedLookup(n)[j]) && OneFailedLookup(n)[j].ListsOwnVideos()
      ensures u in PickedIn(OneFailedLookup(n), j) && u.url == NEW.url ==> u == NEW
    {
      RoundKeepsItsVideos(n, j, u);
    }
  }

  /** One failed lookup, and the video is sent by none of these checks, however many there are. */
  lemma AFailedLookupLosesAVideo(n: nat)
    ensures NEW in PickedIn(OneFailedLookup(n), 1)
    ensures forall j :: 0 <= j < |OneFailedLookup(n)| ==> NEW.url !in SentIn(OneFailedLookup(n), j)
  {
    SecondListingPicks(n);
    RoundAt(n, 1);
    assert Answers([OLD, NEW], None).world.recorded(NEW) == None;
    RoundsKeepTheirVideos(n);
    hide *;
    EverSentIff(OneFailedLookup(n), 0, |OneFailedLookup(n)|, 1, NEW);
  }

  // A restart reads the watermarks back from the file.

  function FileOver(rounds: seq<Round>): map<string, int> {
    if rounds == [] then map[]
    else FileAfter(FileOver(rounds[..|rounds| - 1]), MemoryAfter(rounds[..|rounds| - 1]), rounds[|rounds| - 1])
  }

  function Restarted(rounds: seq<Round>): Memory {
    Memory(FileOver(rounds), map[])
  }

  const OTHER := ChannelEntry("d", Twitch, true, false)
  const NO_STORE := Round([OTHER], World(false, None, _ => None, _ => None, 0, _ => 0, _ => 0))

  lemma OtherIsOptedIn(m: Memory)
    ensures NO_STORE.Opted() == [OTHER] && !NO_STORE.Checks()
    ensures m.watermarks == map[CHANNEL.Key() := 1] ==> m.After(NO_STORE).watermarks == map[]
  {
    assert [OTHER][1..] == [];
    assert OptedInAmong([]) == [];
    assert KeysOf([OTHER]) == {OTHER.Key()};
    if CHANNEL.Key() == OTHER.Key() {
      WatermarkKeysDiffer(Twitch, "c", Twitch, "d");
    }
  }

  lemma TwoRounds(a: Round, b: Round)
    ensures MemoryAfter([a]) == MemoryAfter([]).After(a) && FileOver([a]) == FileAfter(map[], MemoryAfter([]), a)
    ensures MemoryAfter([a, b]) == MemoryAfter([a]).After(b)
    ensures FileOver([a, b]) == FileAfter(FileOver([a]), MemoryAfter([a]), b)
  {
    assert [a][..0] == [] && [a, b][..1] == [a];
    hide Memory.After, FileAfter;
  }

  lemma FirstRoundIsSaved(r: Round)
    requires r == Answers([OLD], Some(false))
    ensures MemoryAfter([]).After(r).watermarks == map[CHANNEL.Key() := 1]
    ensures FileAfter(map[], MemoryAfter([]), r) == map[CHANNEL.Key() := 1]
  {
    FirstListing(Some(false));
    AnswersOfOne(MemoryAfter([]), [OLD], Some(false));
    var after := MemoryAfter([]).After(r).watermarks;
    ProgressKeepsKeys(map[], r.Opted(), r.world, 1);
    assert KeysOf([CHANNEL]) == {CHANNEL.Key()};
    assert MemoryAfter([]).Kept(r) == map[];
    assert after == map[CHANNEL.Key() := 1];
  }

  /**
    Channel c is followed and then left out of a check that finds the store missing: its watermark is forgotten
    but still on file. Once c is followed again, a restarted monitor picks a new video that the running one
    takes for the first listing.
   */
  lemma ARestartRemembersWhatWasForgotten()
    ensures var rounds := [Answers([OLD], Some(false)), NO_STORE];
      var next := Answers([OLD, NEW], Some(false));
      && MemoryAfter(rounds).watermarks == map[] && FileOver(rounds) == map[CHANNEL.Key() := 1]
      && MemoryAfter(rounds).Picked(next) == [] && NEW in Restarted(rounds).Picked(next)
  {
    var first := Answers([OLD], Some(false));
    FirstRoundIsSaved(first);
    TwoRounds(first, NO_STORE);
    OtherIsOptedIn(MemoryAfter([first]));
    AnswersOfOne(MemoryAfter([first, NO_STORE]), [OLD, NEW], Some(false));
    AnswersOfOne(Restarted([first, NO_STORE]), [OLD, NEW], Some(false));
    SelectedMeansNew([OLD, NEW], 1, [], NEW);
    hide MemoryAfter, Memory.After, Memory.Picked, Answers, FileOver, Round.Opted;
  }
}
