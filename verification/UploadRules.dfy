/**
  The rules of an upload check told in the fields of channels, jobs and videos, with the numbers written
  out: who is checked, what is picked, what is left alone because it is being fetched, and what is counted.
 */
module UploadRules {
  import opened Wrappers
  import opened Sequences
  import opened Uploads
  import opened UploadMonitor
  import opened UploadsSent

  lemma ChannelInFront(c: ChannelEntry, rest: seq<ChannelEntry>)
    ensures OptedInAmong([c] + rest) == if c.OptedIn() then [c] + OptedInAmong(rest) else OptedInAmong(rest)
  {
    assert ([c] + rest)[1..] == rest;
    assert [] + OptedInAmong(rest) == OptedInAmong(rest);
    hide ChannelEntry.OptedIn;
  }

  lemma NoChannels()
    ensures OptedInAmong([]) == []
  {
  }

  lemma {:induction false} OneMoreChannel(channels: seq<ChannelEntry>, c: ChannelEntry)
    ensures OptedInAmong(channels + [c]) == if c.OptedIn() then OptedInAmong(channels) + [c] else OptedInAmong(channels)
  {
    hide *;
    NoChannels();
    if channels == [] {
      ChannelInFront(c, []);
      assert channels + [c] == [c] + [];
    } else {
      var (first, rest) := (channels[0], channels[1..]);
      OneMoreChannel(rest, c);
      ChannelInFront(first, rest);
      ChannelInFront(first, rest + [c]);
      assert channels == [first] + rest;
      Associates([first], rest, [c]);
      Associates([first], OptedInAmong(rest), [c]);
    }
  }

  predicate MayBeChecked(c: ChannelEntry) {
    c.platform != Patreon && (c.autoRecord || c.autoDownloadUploads)
  }

  /** `checked` is `channels` read at these places, front to back, and they are those of the channels to check. */
  ghost predicate ReadsAt(channels: seq<ChannelEntry>, checked: seq<ChannelEntry>, at: seq<nat>) {
    && |at| == |checked|
    && (forall k :: 0 <= k < |at| ==> at[k] < |channels| && checked[k] == channels[at[k]])
    && (forall k, l :: 0 <= k < l < |at| ==> at[k] < at[l])
    && (forall i :: 0 <= i < |channels| ==> (i in at <==> MayBeChecked(channels[i])))
  }

  lemma ReadOneMore(channels: seq<ChannelEntry>, checked: seq<ChannelEntry>, at: seq<nat>, c: ChannelEntry)
    requires ReadsAt(channels, checked, at)
    ensures MayBeChecked(c) ==> ReadsAt(channels + [c], checked + [c], at + [|channels|])
    ensures !MayBeChecked(c) ==> ReadsAt(channels + [c], checked, at)
  {
    hide MayBeChecked;
  }

  /** The channels checked are those with one of the two switches on, Patreon apart, in the order of the list. */
  lemma {:induction false} CheckedChannels(channels: seq<ChannelEntry>) returns (at: seq<nat>)
    ensures ReadsAt(channels, OptedInAmong(channels), at)
  {
    if channels == [] {
      at := [];
    } else {
      var (before, c) := (channels[..|channels| - 1], channels[|channels| - 1]);
      at := CheckedChannels(before);
      assert channels == before + [c];
      OneMoreChannel(before, c);
      ReadOneMore(before, OptedInAmong(before), at, c);
      hide OptedInAmong, ReadsAt;
      if c.OptedIn() { at := at + [|before|]; }
    }
  }

  /** The names under which watermarks are kept. */
  lemma KeyInLetters(c: ChannelEntry)
    ensures c.platform.Twitch? ==> c.Key() == "Twitch:" + c.id
    ensures c.platform.YouTube? ==> c.Key() == "YouTube:" + c.id
    ensures c.platform.Patreon? ==> c.Key() == "Patreon:" + c.id
  {
    assert PlatformName(c.platform) + ":" ==
      if c.platform.Twitch? then "Twitch:" else if c.platform.YouTube? then "YouTube:" else "Patreon:";
  }

  // ----------------------------------------------------------------- captures

  /** A live capture of the channel began at that time. */
  predicate CaptureBegan(jobs: seq<Job>, platform: PlatformKind, channelId: string, t: int) {
    exists j :: 0 <= j < |jobs| && jobs[j].sourceUrl.None? && jobs[j].platform == platform
                && jobs[j].channelId == channelId && jobs[j].startedAt == t
  }

  lemma {:induction false} StartsAreCaptures(jobs: seq<Job>, c: ChannelEntry, t: int)
    ensures t in CapturedStarts(jobs, c) <==> CaptureBegan(jobs, c.platform, c.id, t)
  {
    if jobs != [] {
      var (first, rest) := (jobs[0], jobs[1..]);
      StartsAreCaptures(rest, c, t);
      assert jobs == [first] + rest;
      assert CaptureBegan(rest, c.platform, c.id, t) ==> CaptureBegan(jobs, c.platform, c.id, t) by {
        if CaptureBegan(rest, c.platform, c.id, t) {
          var j :| 0 <= j < |rest| && rest[j].sourceUrl.None? && rest[j].platform == c.platform
                   && rest[j].channelId == c.id && rest[j].startedAt == t;
          assert jobs[j + 1] == rest[j];
        }
      }
    }
  }

  /** The length of a video in nanoseconds: nothing if unknown or past what the calendar can hold. */
  function Length(v: VodEntry): nat {
    if v.duration.Some? && v.duration.value <= 9_223_372_036_854_775_807_000_000 then v.duration.value else 0
  }

  /** A capture of this channel began while the broadcast was on air, or within half an hour of that. */
  predicate WasRecordedLive(v: VodEntry, jobs: seq<Job>, c: ChannelEntry)
    requires v.publishedAt.Some?
  {
    exists j :: 0 <= j < |jobs| && jobs[j].sourceUrl.None?
                && jobs[j].platform == c.platform && jobs[j].channelId == c.id
                && v.publishedAt.value - 1_800_000_000_000 <= jobs[j].startedAt
                && jobs[j].startedAt <= v.publishedAt.value + Length(v) + 1_800_000_000_000
  }

  lemma CapturedMeansRecordedLive(v: VodEntry, jobs: seq<Job>, c: ChannelEntry)
    requires v.publishedAt.Some?
    ensures BroadcastWasCaptured(v, CapturedStarts(jobs, c)) <==> WasRecordedLive(v, jobs, c)
  {
    var starts := CapturedStarts(jobs, c);
    if BroadcastWasCaptured(v, starts) {
      var i :| 0 <= i < |starts| && v.publishedAt.value - 1_800_000_000_000 <= starts[i]
               && starts[i] <= v.publishedAt.value + Length(v) + 1_800_000_000_000;
      StartsAreCaptures(jobs, c, starts[i]);
    }
    if WasRecordedLive(v, jobs, c) {
      var j :| 0 <= j < |jobs| && jobs[j].sourceUrl.None? && jobs[j].platform == c.platform && jobs[j].channelId == c.id
               && v.publishedAt.value - 1_800_000_000_000 <= jobs[j].startedAt
               && jobs[j].startedAt <= v.publishedAt.value + Length(v) + 1_800_000_000_000;
      StartsAreCaptures(jobs, c, jobs[j].startedAt);
    }
  }

  // ------------------------------------------------------------- what is picked

  /** The checks of the channel at position i of round k that come before that one. */
  function Earlier(rounds: seq<Round>, k: nat, i: nat): seq<Check>
    requires k < |rounds| && i < |rounds[k].Opted()|
  {
    var (r, key) := (rounds[k], rounds[k].Opted()[i].Key());
    ChecksSince(key, rounds[..k]) + ChecksIn(key, r.Opted(), r.world, i)
  }

  /** Listed at position i, dated later than all its channel has shown so far, and not a broadcast recorded live. */
  ghost predicate IsNews(rounds: seq<Round>, k: nat, i: nat, v: VodEntry)
    requires k < |rounds|
  {
    var r := rounds[k];
    && i < |r.Opted()| && r.world.listing(i).Some? && v in r.world.listing(i).value
    && !IsFirst(Earlier(rounds, k, i))
    && v.publishedAt.Some?
    && (forall t :: Seen(Earlier(rounds, k, i), t) ==> t < v.publishedAt.value)
    && !(v.kind.LiveBroadcast? && WasRecordedLive(v, r.world.Jobs(), r.Opted()[i]))
  }

  lemma PickedOnIsNews(rounds: seq<Round>, k: nat, i: nat, v: VodEntry)
    requires k < |rounds| && i < |rounds[k].Opted()|
    ensures var (m, r) := (MemoryAfter(rounds[..k]), rounds[k]);
      v in PickedOn(Progressed(m.Kept(r), r.Opted(), r.world, i), r.Opted()[i], r.world, i) <==> IsNews(rounds, k, i, v)
  {
    var r := rounds[k];
    var (c, all) := (r.Opted()[i], ChecksUpTo(rounds[..k], r, i));
    RoundIsOneCheck(rounds[..k], r, i);
    assert all == Earlier(rounds, k, i) + [CheckAt(r.Opted(), r.world, i)];
    assert all[..|all| - 1] == Earlier(rounds, k, i);
    EachCheckSelectsTheNews(all, |all| - 1, v);
    if v.publishedAt.Some? {
      CapturedMeansRecordedLive(v, r.world.Jobs(), c);
    }
    hide MemoryAfter, Progressed, PickedOn, SelectedBy, ChecksUpTo, Earlier, Seen, IsFirst, WasRecordedLive,
      BroadcastWasCaptured, CapturedStarts, Round.Opted;
  }

  lemma {:induction false} PickedFrom(w: map<string, int>, opted: seq<ChannelEntry>, world: World, i: nat, n: nat,
                                      v: VodEntry)
    requires i < n <= |opted| && v in PickedOn(Progressed(w, opted, world, i), opted[i], world, i)
    ensures v in PickedUpTo(w, opted, world, n)
  {
    hide Progressed, PickedOn;
    if i < n - 1 {
      PickedFrom(w, opted, world, i, n - 1, v);
    }
  }

  /**
    A check picks exactly the news: with the store at hand, and at some channel's turn, what is listed there and
    dated later than everything that channel has shown since it was last left out, unless it is a broadcast whose
    capture began between half an hour before it and half an hour after its end.
   */
  lemma PickedExactly(rounds: seq<Round>, k: nat, v: VodEntry)
    requires k < |rounds|
    ensures v in PickedIn(rounds, k) <==> rounds[k].world.hasStore && exists i :: IsNews(rounds, k, i, v)
  {
    var (m, r) := (MemoryAfter(rounds[..k]), rounds[k]);
    hide MemoryAfter, Progressed, PickedOn, PickedUpTo, Round.Opted, Memory.Kept, IsNews;
    if v in PickedIn(rounds, k) {
      var i := PickedSomewhere(m.Kept(r), r.Opted(), r.world, |r.Opted()|, v);
      PickedOnIsNews(rounds, k, i, v);
    }
    if i :| r.world.hasStore && IsNews(rounds, k, i, v) {
      NewsIsPlaced(rounds, k, i, v);
      PickedOnIsNews(rounds, k, i, v);
      PickedFrom(m.Kept(r), r.Opted(), r.world, i, |r.Opted()|, v);
    }
  }

  lemma NewsIsPlaced(rounds: seq<Round>, k: nat, i: nat, v: VodEntry)
    requires k < |rounds| && IsNews(rounds, k, i, v)
    ensures i < |rounds[k].Opted()|
  {
    hide Round.Opted;
  }

  // ------------------------------------------------------------- what is left alone

  /** Some job for the url is in one of the states. */
  predicate HasJob(jobs: seq<Job>, url: string, a: JobState, b: JobState) {
    exists j :: 0 <= j < |jobs| && jobs[j].sourceUrl == Some(url) && (jobs[j].state == a || jobs[j].state == b)
  }

  lemma UrlsAreJobs(jobs: seq<Job>, url: string, a: JobState, b: JobState)
    ensures url in UrlsIn(jobs, {a, b}) <==> HasJob(jobs, url, a, b)
  {
    if HasJob(jobs, url, a, b) {
      var j :| 0 <= j < |jobs| && jobs[j].sourceUrl == Some(url) && (jobs[j].state == a || jobs[j].state == b);
      assert jobs[j] in jobs;
    }
  }

  /**
    A url is left alone while a job resolves or records it, and otherwise for half an hour after it was queued,
    but no longer than until a job for it has finished or failed.
   */
  lemma BusyExactly(m: Memory, r: Round, url: string)
    ensures url in m.Busy(r) <==>
      || HasJob(r.world.Jobs(), url, ResolvingUrl, Recording)
      || (url in m.enqueued && r.world.instant - m.enqueued[url] < 1_800_000_000_000
          && !HasJob(r.world.Jobs(), url, Finished, JobState.Failed))
  {
    UrlsAreJobs(r.world.Jobs(), url, ResolvingUrl, Recording);
    UrlsAreJobs(r.world.Jobs(), url, Finished, JobState.Failed);
    hide UrlsIn, HasJob;
  }

  /**
    After a check the urls it sent are remembered with the moment at which each was queued, and those still
    waiting with theirs; without a check nothing changes.
   */
  lemma RememberedAfter(m: Memory, r: Round, url: string)
    ensures var (after, sent) := (m.After(r).enqueued, m.ReportOf(r).sent);
      if r.Opted() == [] || !r.world.hasStore then after == m.enqueued
      else
        && (url in after <==>
              || url in sent
              || (url in m.enqueued && r.world.instant - m.enqueued[url] < 1_800_000_000_000
                  && !HasJob(r.world.Jobs(), url, Finished, JobState.Failed)))
        && (url in after ==> after[url] == if url in sent then r.world.queuedAt(url) else m.enqueued[url])
  {
    UrlsAreJobs(r.world.Jobs(), url, Finished, JobState.Failed);
    hide UrlsIn, HasJob, Queue, Memory.Picked, Progressed, Round.Opted, InFlight;
  }

  /**
    The file is written when a watermark has changed, unless channels are to be checked and the store is missing;
    otherwise it is left as it is, whatever it says.
   */
  lemma FileIsWrittenIff(file: map<string, int>, m: Memory, r: Round)
    ensures FileAfter(file, m, r) == file || FileAfter(file, m, r) == m.After(r).watermarks
    ensures file != m.After(r).watermarks ==>
      ((FileAfter(file, m, r) == m.After(r).watermarks)
        <==> (m.After(r).watermarks != m.watermarks && (r.world.hasStore || r.Opted() == [])))
  {
    hide Memory.After, Round.Opted;
  }

  // ------------------------------------------------------------------ what is counted

  /** An earlier picked video with the same url was sent. */
  ghost predicate SentBefore(picked: seq<VodEntry>, world: World, i: nat)
    requires i < |picked|
  {
    exists j :: 0 <= j < i && picked[j].url == picked[i].url && world.recorded(picked[j]) == Some(false)
  }

  ghost predicate LeftAlone(picked: seq<VodEntry>, busy: set<string>, world: World, i: nat)
    requires i < |picked|
  {
    picked[i].url in busy || SentBefore(picked, world, i)
  }

  ghost function Places(picked: seq<VodEntry>, busy: set<string>, world: World, answer: Option<bool>): set<nat> {
    set i: nat | i < |picked| && !LeftAlone(picked, busy, world, i) && world.recorded(picked[i]) == answer
  }

  ghost function PlacesLeftAlone(picked: seq<VodEntry>, busy: set<string>, world: World): set<nat> {
    set i: nat | i < |picked| && LeftAlone(picked, busy, world, i)
  }

  lemma EarlierFatesStay(picked: seq<VodEntry>, v: VodEntry, busy: set<string>, world: World, i: nat)
    requires i < |picked|
    ensures LeftAlone(picked + [v], busy, world, i) <==> LeftAlone(picked, busy, world, i)
  {
    assert forall j :: 0 <= j < |picked| ==> (picked + [v])[j] == picked[j];
  }

  lemma MorePlaces(picked: seq<VodEntry>, v: VodEntry, busy: set<string>, world: World, answer: Option<bool>)
    ensures |Places(picked + [v], busy, world, answer)| == |Places(picked, busy, world, answer)|
      + if !LeftAlone(picked + [v], busy, world, |picked|) && world.recorded(v) == answer then 1 else 0
  {
    var all := picked + [v];
    hide LeftAlone;
    forall i: nat | i < |picked| ensures LeftAlone(all, busy, world, i) == LeftAlone(picked, busy, world, i) {
      EarlierFatesStay(picked, v, busy, world, i);
    }
    OneLarger(Places(picked, busy, world, answer), Places(all, busy, world, answer), |picked|,
              !LeftAlone(all, busy, world, |picked|) && world.recorded(v) == answer);
  }

  lemma MoreLeftAlone(picked: seq<VodEntry>, v: VodEntry, busy: set<string>, world: World)
    ensures |PlacesLeftAlone(picked + [v], busy, world)| == |PlacesLeftAlone(picked, busy, world)|
      + if LeftAlone(picked + [v], busy, world, |picked|) then 1 else 0
  {
    var all := picked + [v];
    hide LeftAlone;
    forall i: nat | i < |picked| ensures LeftAlone(all, busy, world, i) == LeftAlone(picked, busy, world, i) {
      EarlierFatesStay(picked, v, busy, world, i);
    }
    OneLarger(PlacesLeftAlone(picked, busy, world), PlacesLeftAlone(all, busy, world), |picked|,
              LeftAlone(all, busy, world, |picked|));
  }

  lemma LastLeftAlone(picked: seq<VodEntry>, v: VodEntry, busy: set<string>, world: World, sent: seq<string>)
    requires SentRightly(sent, picked, busy, world)
    ensures LeftAlone(picked + [v], busy, world, |picked|) <==> v.url in busy || v.url in sent
  {
    var (all, n) := (picked + [v], |picked|);
    if v.url in sent {
      var u :| u in picked && u.url == v.url && world.recorded(u) == Some(false);
      var j :| 0 <= j < n && picked[j] == u;
      assert all[j].url == all[n].url;
    }
    if SentBefore(all, world, n) {
      var j :| 0 <= j < n && all[j].url == v.url && world.recorded(all[j]) == Some(false);
      assert picked[j] in picked && picked[j] == all[j];
    }
  }

  ghost predicate Counted(r: Report, picked: seq<VodEntry>, busy: set<string>, world: World) {
    && r.found == |picked|
    && r.inFlight == |PlacesLeftAlone(picked, busy, world)|
    && r.alreadyRecorded == |Places(picked, busy, world, Some(true))|
    && r.lookupsFailed == |Places(picked, busy, world, None)|
    && |r.sent| == |Places(picked, busy, world, Some(false))|
  }

  lemma CountOneMore(r: Report, picked: seq<VodEntry>, v: VodEntry, inFlight: set<string>, queued: set<string>,
                     world: World)
    requires var busy := inFlight + queued; Counted(r, picked, busy, world) && SentRightly(r.sent, picked, busy, world)
    ensures Counted(Outcome(r, v, inFlight, queued, world), picked + [v], inFlight + queued, world)
  {
    var busy := inFlight + queued;
    LastLeftAlone(picked, v, busy, world, r.sent);
    MoreLeftAlone(picked, v, busy, world);
    MorePlaces(picked, v, busy, world, Some(true));
    MorePlaces(picked, v, busy, world, None);
    MorePlaces(picked, v, busy, world, Some(false));
    hide LeftAlone, SentRightly, Places, PlacesLeftAlone;
  }

  lemma NothingCounted(inFlight: set<string>, queued: set<string>, world: World)
    ensures Counted(Queue([], inFlight, queued, world), [], inFlight + queued, world)
  {
    hide LeftAlone;
    assert PlacesLeftAlone([], inFlight + queued, world) == {};
    assert forall answer :: Places([], inFlight + queued, world, answer) == {};
  }

  lemma QueueOfMore(picked: seq<VodEntry>, v: VodEntry, inFlight: set<string>, queued: set<string>, world: World)
    ensures Queue(picked + [v], inFlight, queued, world)
      == Outcome(Queue(picked, inFlight, queued, world), v, inFlight, queued, world)
  {
    assert (picked + [v])[..|picked|] == picked;
    hide Outcome;
  }

  /** Every counter of the report is the number of picked videos that met that fate. */
  lemma {:induction false} ReportCounts(picked: seq<VodEntry>, inFlight: set<string>, queued: set<string>, world: World)
    ensures Counted(Queue(picked, inFlight, queued, world), picked, inFlight + queued, world)
  {
    hide *;
    if picked == [] {
      NothingCounted(inFlight, queued, world);
    } else {
      var (before, v) := (picked[..|picked| - 1], picked[|picked| - 1]);
      ReportCounts(before, inFlight, queued, world);
      QueueIsRight(before, inFlight, queued, world);
      QueueOfMore(before, v, inFlight, queued, world);
      CountOneMore(Queue(before, inFlight, queued, world), before, v, inFlight, queued, world);
      assert picked == before + [v];
    }
  }
}
