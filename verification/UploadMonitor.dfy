/** One check of all followed channels for new uploads, as the monitor performs it. */
module UploadMonitor {
  import opened Wrappers
  import opened Sequences
  import opened Uploads

  // How long a queued url is remembered at most.
  const DEDUPE_TTL := 30 * NANOS_PER_MINUTE

  datatype ChannelEntry = ChannelEntry(
    id: string,
    platform: PlatformKind,
    autoRecord: bool,
    autoDownloadUploads: bool)
  {
    function Key(): string {
      WatermarkKey(platform, id)
    }

    predicate OptedIn() {
      (autoDownloadUploads || autoRecord) && platform != Patreon
    }
  }

  datatype JobState = ResolvingUrl | Recording | Stopping | Finished | Failed

  datatype Job = Job(
    platform: PlatformKind,
    channelId: string,
    sourceUrl: Option<string>,
    startedAt: int,
    state: JobState)

  /** What the store, the platforms and the clocks answer during one check. */
  datatype World = World(
    hasStore: bool,
    loadedJobs: Option<seq<Job>>,
    listing: nat -> Option<seq<VodEntry>>,   // by position among the opted-in channels
    recorded: VodEntry -> Option<bool>,      // None: the lookup failed
    instant: nat,               // when the check begins
    queuedAt: string -> nat,    // when a url is queued, if it is
    clock: nat -> int)          // when the listing at a position is taken in
  {
    function Jobs(): seq<Job> {
      if loadedJobs.Some? then loadedJobs.value else []
    }
  }

  datatype Report = Report(found: nat, sent: seq<string>, inFlight: nat, alreadyRecorded: nat, lookupsFailed: nat)
  {
    predicate AddsUp() {
      found == |sent| + inFlight + alreadyRecorded + lookupsFailed
    }
  }

  function OptedInAmong(channels: seq<ChannelEntry>): seq<ChannelEntry> {
    if channels == [] then []
    else (if channels[0].OptedIn() then [channels[0]] else []) + OptedInAmong(channels[1..])
  }

  function KeysOf(channels: seq<ChannelEntry>): set<string> {
    set c | c in channels :: c.Key()
  }

  function UrlsIn(jobs: seq<Job>, states: set<JobState>): set<string> {
    set j | j in jobs && j.state in states && j.sourceUrl.Some? :: j.sourceUrl.value
  }

  function InFlight(jobs: seq<Job>): set<string> {
    UrlsIn(jobs, {ResolvingUrl, Recording})
  }

  function Completed(jobs: seq<Job>): set<string> {
    UrlsIn(jobs, {Finished, Failed})
  }

  /** When this channel's live captures started. */
  function CapturedStarts(jobs: seq<Job>, c: ChannelEntry): seq<int> {
    if jobs == [] then []
    else
      var j := jobs[0];
      (if j.sourceUrl.None? && j.platform == c.platform && j.channelId == c.id then [j.startedAt] else [])
      + CapturedStarts(jobs[1..], c)
  }

  function Retained(watermarks: map<string, int>, keys: set<string>): map<string, int> {
    map k | k in watermarks && k in keys :: watermarks[k]
  }

  /** Queued urls stay remembered until their job is over, or for the time allowed. */
  function StillQueued(enqueued: map<string, nat>, completed: set<string>, instant: nat): map<string, nat> {
    map url | url in enqueued && url !in completed && instant - enqueued[url] < DEDUPE_TTL :: enqueued[url]
  }

  function Get(w: map<string, int>, key: string): Option<int> {
    if key in w then Some(w[key]) else None
  }

  /** The watermarks once the first n opted-in channels have been checked. */
  function Progressed(w: map<string, int>, opted: seq<ChannelEntry>, world: World, n: nat): map<string, int>
    requires n <= |opted|
  {
    if n == 0 then w
    else
      var (before, key) := (Progressed(w, opted, world, n - 1), opted[n - 1].Key());
      match world.listing(n - 1)
      case None => before
      case Some(vods) =>
        var next := NextWatermark(vods, Get(before, key), world.clock(n - 1));
        if next.Some? then before[key := next.value] else before
  }

  /** What checking position i of the opted-in channels is for the channel listed there. */
  function CheckAt(opted: seq<ChannelEntry>, world: World, i: nat): Check
    requires i < |opted|
  {
    match world.listing(i)
    case None => Missed
    case Some(vods) => Fetched(vods, CapturedStarts(world.Jobs(), opted[i]), world.clock(i))
  }

  /** The checks among the first n that use the watermark of `key`: none, one, or more if a channel is listed twice. */
  function ChecksIn(key: string, opted: seq<ChannelEntry>, world: World, n: nat): seq<Check>
    requires n <= |opted|
  {
    if n == 0 then []
    else
      ChecksIn(key, opted, world, n - 1) + if opted[n - 1].Key() == key then [CheckAt(opted, world, n - 1)] else []
  }

  /** A watermark after one more check of its channel. */
  function Moved(w: Option<int>, c: Check): Option<int> {
    if c.Missed? then w else Advanced(c.vods, w, c.now)
  }

  lemma OneCheckMore(checks: seq<Check>, c: Check)
    ensures WatermarkAfter(checks + [c]) == Moved(WatermarkAfter(checks), c)
  {
    assert (checks + [c])[..|checks|] == checks;
  }

  lemma OneChannelMore(w: map<string, int>, opted: seq<ChannelEntry>, world: World, n: nat, key: string)
    requires n < |opted|
    ensures var before := Get(Progressed(w, opted, world, n), key);
      Get(Progressed(w, opted, world, n + 1), key)
        == if opted[n].Key() == key then Moved(before, CheckAt(opted, world, n)) else before
  {
    hide NextWatermark;
  }

  lemma OneMoreCheckIn(key: string, opted: seq<ChannelEntry>, world: World, n: nat, past: seq<Check>)
    requires n < |opted|
    ensures var (before, after) := (past + ChecksIn(key, opted, world, n), past + ChecksIn(key, opted, world, n + 1));
      after == if opted[n].Key() == key then before + [CheckAt(opted, world, n)] else before
  {
    hide CheckAt;
  }

  lemma NoChannelYet(w: map<string, int>, opted: seq<ChannelEntry>, world: World, key: string, past: seq<Check>)
    ensures Progressed(w, opted, world, 0) == w && past + ChecksIn(key, opted, world, 0) == past
  {
  }

  /** Channels do not interfere: each watermark moves as the checks of its own channel say. */
  lemma {:induction false} EachChannelAlone(w: map<string, int>, opted: seq<ChannelEntry>, world: World, n: nat,
                                            key: string, past: seq<Check>)
    requires n <= |opted| && Get(w, key) == WatermarkAfter(past)
    ensures Get(Progressed(w, opted, world, n), key) == WatermarkAfter(past + ChecksIn(key, opted, world, n))
  {
    hide *;
    if n == 0 {
      NoChannelYet(w, opted, world, key, past);
    } else {
      OneChannelMore(w, opted, world, n - 1, key);
      OneMoreCheckIn(key, opted, world, n - 1, past);
      EachChannelAlone(w, opted, world, n - 1, key, past);
      OneCheckMore(past + ChecksIn(key, opted, world, n - 1), CheckAt(opted, world, n - 1));
    }
  }

  /** Only opted-in channels have watermarks. */
  lemma {:induction false} ProgressKeepsKeys(w: map<string, int>, opted: seq<ChannelEntry>, world: World, n: nat)
    requires n <= |opted| && w.Keys <= KeysOf(opted)
    ensures w.Keys <= Progressed(w, opted, world, n).Keys <= KeysOf(opted)
  {
    if n > 0 {
      assert opted[n - 1].Key() in KeysOf(opted);
      hide NextWatermark, KeysOf;
      ProgressKeepsKeys(w, opted, world, n - 1);
    }
  }

  /** Checking n more channels changes some watermark, or none at all; no value goes down. */
  lemma {:induction false} ProgressNeverDecreases(w: map<string, int>, opted: seq<ChannelEntry>, world: World, n: nat)
    requires n <= |opted|
    ensures forall k :: k in w ==> k in Progressed(w, opted, world, n) && w[k] <= Progressed(w, opted, world, n)[k]
  {
    if n > 0 {
      ProgressNeverDecreases(w, opted, world, n - 1);
    }
  }

  lemma StepNeverDecreases(w: map<string, int>, opted: seq<ChannelEntry>, world: World, n: nat)
    requires n < |opted|
    ensures var (a, b) := (Progressed(w, opted, world, n), Progressed(w, opted, world, n + 1));
      forall k :: k in a ==> k in b && a[k] <= b[k]
  {
  }

  /** What checking channel n stores, if anything. */
  function Stored(w: map<string, int>, opted: seq<ChannelEntry>, world: World, n: nat): Option<int>
    requires n < |opted|
  {
    match world.listing(n)
    case None => None
    case Some(vods) =>
      NextWatermark(vods, Get(Progressed(w, opted, world, n), opted[n].Key()), world.clock(n))
  }

  /** A stored watermark always differs from the one it replaces. */
  lemma StoringChanges(w: map<string, int>, opted: seq<ChannelEntry>, world: World, n: nat)
    requires n < |opted|
    ensures Stored(w, opted, world, n).Some? <==> Progressed(w, opted, world, n + 1) != Progressed(w, opted, world, n)
    ensures Stored(w, opted, world, n).Some? ==>
      Progressed(w, opted, world, n + 1)
        == Progressed(w, opted, world, n)[opted[n].Key() := Stored(w, opted, world, n).value]
  {
  }

  lemma Antisymmetric(a: map<string, int>, b: map<string, int>)
    requires forall k :: k in a ==> k in b && a[k] <= b[k]
    requires forall k :: k in b ==> k in a && b[k] <= a[k]
    ensures a == b
  {
  }

  /** The watermarks have changed since `start` if they had before channel n, or channel n stored one. */
  lemma ChangesAccumulate(start: map<string, int>, opted: seq<ChannelEntry>, world: World, n: nat)
    requires n < |opted|
    ensures var w := Retained(start, KeysOf(opted));
      (Progressed(w, opted, world, n + 1) != start)
        <==> (Progressed(w, opted, world, n) != start || Stored(w, opted, world, n).Some?)
  {
    var w := Retained(start, KeysOf(opted));
    var a, b := Progressed(w, opted, world, n), Progressed(w, opted, world, n + 1);
    StoringChanges(w, opted, world, n);
    ProgressKeepsKeys(w, opted, world, n);
    ProgressKeepsKeys(w, opted, world, n + 1);
    ProgressNeverDecreases(w, opted, world, n);
    StepNeverDecreases(w, opted, world, n);
    hide Progressed, Stored, KeysOf;
    if b == start {
      assert w == start;
      Antisymmetric(a, b);
    }
  }

  /** Forgetting watermarks changes their number exactly when it changes any. */
  lemma FewerMeansForgotten(w: map<string, int>, keys: set<string>)
    ensures |Retained(w, keys)| != |w| <==> Retained(w, keys) != w
  {
    var r := Retained(w, keys);
    assert |r.Keys| == |r| && |w.Keys| == |w|;
    SubsetCardinality(r.Keys, w.Keys);
    assert r.Keys == w.Keys ==> r == w;
  }

  const NOTHING := Report(0, [], 0, 0, 0)

  /** What becomes of the picked videos, one after the other. */
  function Queue(picked: seq<VodEntry>, inFlight: set<string>, queued: set<string>, world: World): Report {
    if picked == [] then NOTHING
    else
      var (earlier, v) := (Queue(picked[..|picked| - 1], inFlight, queued, world), picked[|picked| - 1]);
      Outcome(earlier, v, inFlight, queued, world)
  }

  function Outcome(earlier: Report, v: VodEntry, inFlight: set<string>, queued: set<string>, world: World): Report {
    var r := earlier.(found := earlier.found + 1);
    if v.url in inFlight || v.url in queued || v.url in earlier.sent then r.(inFlight := r.inFlight + 1)
    else
      match world.recorded(v)
      case Some(true) => r.(alreadyRecorded := r.alreadyRecorded + 1)
      case None => r.(lookupsFailed := r.lookupsFailed + 1)
      case Some(false) => r.(sent := r.sent + [v.url])
  }

  /** Nothing sent twice, nothing sent that is already being fetched, nothing else left out. */
  ghost predicate SentRightly(sent: seq<string>, picked: seq<VodEntry>, busy: set<string>, world: World) {
    && Distinct(sent)
    && (forall url :: url in sent ==>
          url !in busy && exists v :: v in picked && v.url == url && world.recorded(v) == Some(false))
    && (forall v :: v in picked && world.recorded(v) == Some(false) ==> v.url in busy || v.url in sent)
  }

  lemma SendOneMore(sent: seq<string>, picked: seq<VodEntry>, busy: set<string>, world: World, v: VodEntry)
    requires SentRightly(sent, picked, busy, world)
    ensures v.url in busy || v.url in sent || world.recorded(v) != Some(false) ==>
      SentRightly(sent, picked + [v], busy, world)
    ensures v.url !in busy && v.url !in sent && world.recorded(v) == Some(false) ==>
      SentRightly(sent + [v.url], picked + [v], busy, world)
  {
  }

  lemma OutcomeIsRight(r: Report, picked: seq<VodEntry>, v: VodEntry, inFlight: set<string>, queued: set<string>,
                       world: World)
    requires r.AddsUp() && SentRightly(r.sent, picked, inFlight + queued, world)
    ensures var next := Outcome(r, v, inFlight, queued, world);
      && next.found == r.found + 1 && next.AddsUp()
      && SentRightly(next.sent, picked + [v], inFlight + queued, world)
  {
    SendOneMore(r.sent, picked, inFlight + queued, world, v);
    hide SentRightly;
  }

  /** Every picked video is accounted for once, and exactly those that need fetching are sent, once each. */
  lemma {:induction false} QueueIsRight(picked: seq<VodEntry>, inFlight: set<string>, queued: set<string>, world: World)
    ensures var r := Queue(picked, inFlight, queued, world);
      && r.found == |picked| && r.AddsUp()
      && SentRightly(r.sent, picked, inFlight + queued, world)
  {
    if picked != [] {
      var before, v := picked[..|picked| - 1], picked[|picked| - 1];
      assert picked == before + [v];
      QueueIsRight(before, inFlight, queued, world);
      hide SentRightly, Outcome, Report.AddsUp;
      OutcomeIsRight(Queue(before, inFlight, queued, world), before, v, inFlight, queued, world);
    }
  }

  /** The videos selected on the first n opted-in channels, channel by channel. */
  function PickedUpTo(w: map<string, int>, opted: seq<ChannelEntry>, world: World, n: nat): seq<VodEntry>
    requires n <= |opted|
  {
    if n == 0 then []
    else
      PickedUpTo(w, opted, world, n - 1)
      + PickedOn(Progressed(w, opted, world, n - 1), opted[n - 1], world, n - 1)
  }

  function PickedOn(w: map<string, int>, c: ChannelEntry, world: World, i: nat): seq<VodEntry> {
    match world.listing(i)
    case None => []
    case Some(vods) => SelectNewUploads(vods, Get(w, c.Key()), CapturedStarts(world.Jobs(), c))
  }

  // A channel over many checks of the whole list.

  datatype Round = Round(channels: seq<ChannelEntry>, world: World)
  {
    function Opted(): seq<ChannelEntry> {
      OptedInAmong(channels)
    }

    /** There is something to check and a store to check it against. */
    predicate Checks() {
      Opted() != [] && world.hasStore
    }

    /** Every listed video carries the platform and the id of the channel it was listed for. */
    ghost predicate ListsOwnVideos() {
      forall i, v :: 0 <= i < |Opted()| && world.listing(i).Some? && v in world.listing(i).value ==>
        v.platform == Opted()[i].platform && v.channelId == Opted()[i].id
    }
  }

  /** What the monitor remembers between checks. */
  datatype Memory = Memory(watermarks: map<string, int>, enqueued: map<string, nat>)
  {
    function Kept(r: Round): map<string, int> {
      Retained(watermarks, KeysOf(r.Opted()))
    }

    function Waiting(r: Round): map<string, nat> {
      StillQueued(enqueued, Completed(r.world.Jobs()), r.world.instant)
    }

    /** Urls that are not sent in this check: being fetched by a job, or queued a short while ago. */
    function Busy(r: Round): set<string> {
      InFlight(r.world.Jobs()) + Waiting(r).Keys
    }

    function Picked(r: Round): seq<VodEntry> {
      if r.Checks() then PickedUpTo(Kept(r), r.Opted(), r.world, |r.Opted()|) else []
    }

    function ReportOf(r: Round): Report {
      if r.Checks() then Queue(Picked(r), InFlight(r.world.Jobs()), Waiting(r).Keys, r.world) else NOTHING
    }

    function After(r: Round): Memory {
      if r.Checks() then
        Memory(Progressed(Kept(r), r.Opted(), r.world, |r.Opted()|),
               Remembered(Waiting(r), ReportOf(r).sent, r.world.queuedAt))
      else
        Memory(Kept(r), enqueued)
    }
  }

  /** The watermark file after a check: written when the watermarks changed, unless the store is missing. */
  function FileAfter(file: map<string, int>, m: Memory, r: Round): map<string, int> {
    if m.After(r).watermarks == m.watermarks || (r.Opted() != [] && !r.world.hasStore) then file
    else m.After(r).watermarks
  }

  /**
    A file in step with the memory stays in step exactly when no watermark was forgotten, no channel is opted in,
    or the store is there.
   */
  lemma FileStaysInStepIff(m: Memory, r: Round)
    ensures FileAfter(m.watermarks, m, r) == m.After(r).watermarks
      <==> m.Kept(r) == m.watermarks || r.Opted() == [] || r.world.hasStore
  {
    hide Round.Opted, Memory.Kept, Progressed, KeysOf, Remembered, Memory.ReportOf, Memory.Waiting;
  }

  /** The memory of queued urls once these have been queued, each at its moment. */
  function Remembered(queued: map<string, nat>, sent: seq<string>, at: string -> nat): map<string, nat> {
    queued + map url | url in sent :: at(url)
  }

  function MemoryAfter(rounds: seq<Round>): Memory {
    if rounds == [] then Memory(map[], map[])
    else MemoryAfter(rounds[..|rounds| - 1]).After(rounds[|rounds| - 1])
  }

  predicate OptedIn(key: string, r: Round) {
    key in KeysOf(r.Opted())
  }

  function ChecksOfRound(key: string, r: Round): seq<Check> {
    if r.Checks() then ChecksIn(key, r.Opted(), r.world, |r.Opted()|) else []
  }

  /** The checks of one channel since it was last left out. */
  function ChecksSince(key: string, rounds: seq<Round>): seq<Check> {
    if rounds == [] then []
    else
      var last := rounds[|rounds| - 1];
      if !OptedIn(key, last) then [] else ChecksSince(key, rounds[..|rounds| - 1]) + ChecksOfRound(key, last)
  }

  /** A channel that is left out of one check starts afresh: its watermark is gone. */
  lemma OptingOutForgets(m: Memory, r: Round, key: string)
    requires !OptedIn(key, r)
    ensures Get(m.After(r).watermarks, key) == None
  {
    ProgressKeepsKeys(m.Kept(r), r.Opted(), r.world, |r.Opted()|);
    hide Progressed, KeysOf;
  }

  lemma RoundFollowsItsChecks(m: Memory, r: Round, key: string, past: seq<Check>)
    requires OptedIn(key, r) && Get(m.watermarks, key) == WatermarkAfter(past)
    ensures Get(m.After(r).watermarks, key) == WatermarkAfter(past + ChecksOfRound(key, r))
  {
    assert Get(m.Kept(r), key) == Get(m.watermarks, key);
    EachChannelAlone(m.Kept(r), r.Opted(), r.world, |r.Opted()|, key, past);
    assert past + [] == past;
    hide Progressed, KeysOf, WatermarkAfter, ChecksIn;
  }

  /** A channel's watermark always follows its own checks since it was last left out, and nothing else. */
  lemma {:induction false} ChannelFollowsItsOwnChecks(key: string, rounds: seq<Round>)
    ensures Get(MemoryAfter(rounds).watermarks, key) == WatermarkAfter(ChecksSince(key, rounds))
  {
    if rounds != [] {
      var before, r := rounds[..|rounds| - 1], rounds[|rounds| - 1];
      hide OptedIn, ChecksOfRound, Get, Memory.After;
      if OptedIn(key, r) {
        ChannelFollowsItsOwnChecks(key, before);
        RoundFollowsItsChecks(MemoryAfter(before), r, key, ChecksSince(key, before));
      } else {
        OptingOutForgets(MemoryAfter(before), r, key);
      }
    }
  }

  /** Every check of this channel up to and including position i of a round that follows `rounds`. */
  function ChecksUpTo(rounds: seq<Round>, r: Round, i: nat): seq<Check>
    requires i < |r.Opted()|
  {
    var key := r.Opted()[i].Key();
    ChecksSince(key, rounds) + ChecksIn(key, r.Opted(), r.world, i + 1)
  }

  /** What is picked at one position of one round is what the channel's own latest check selects. */
  lemma RoundIsOneCheck(rounds: seq<Round>, r: Round, i: nat)
    requires i < |r.Opted()|
    ensures ChecksUpTo(rounds, r, i) != []
    ensures PickedOn(Progressed(MemoryAfter(rounds).Kept(r), r.Opted(), r.world, i), r.Opted()[i], r.world, i)
      == SelectedBy(ChecksUpTo(rounds, r, i), |ChecksUpTo(rounds, r, i)| - 1)
  {
    var (m, key) := (MemoryAfter(rounds), r.Opted()[i].Key());
    var (past, earlier) := (ChecksSince(key, rounds), ChecksIn(key, r.Opted(), r.world, i));
    assert Get(m.Kept(r), key) == Get(m.watermarks, key);
    ChannelFollowsItsOwnChecks(key, rounds);
    EachChannelAlone(m.Kept(r), r.Opted(), r.world, i, key, past);
    var all := ChecksUpTo(rounds, r, i);
    assert all == past + earlier + [CheckAt(r.Opted(), r.world, i)];
    assert all[..|all| - 1] == past + earlier;
    hide WatermarkAfter, Progressed, ChecksIn, ChecksSince, MemoryAfter, KeysOf;
  }

  lemma RememberOneMore(queued: map<string, nat>, sent: seq<string>, at: string -> nat, url: string)
    ensures Remembered(queued, sent + [url], at) == Remembered(queued, sent, at)[url := at(url)]
    ensures url in Remembered(queued, sent, at) <==> url in queued || url in sent
  {
  }

  lemma QueueOneMore(picked: seq<VodEntry>, v: VodEntry, inFlight: set<string>, queued: map<string, nat>, world: World)
    ensures var (r, s) :=
        (Queue(picked, inFlight, queued.Keys, world), Queue(picked + [v], inFlight, queued.Keys, world));
      var (known, known') := (Remembered(queued, r.sent, world.queuedAt), Remembered(queued, s.sent, world.queuedAt));
      var q := r.(found := r.found + 1);
      if v.url in inFlight || v.url in known then s == q.(inFlight := q.inFlight + 1) && known' == known
      else
        match world.recorded(v)
        case Some(true) => s == q.(alreadyRecorded := q.alreadyRecorded + 1) && known' == known
        case None => s == q.(lookupsFailed := q.lookupsFailed + 1) && known' == known
        case Some(false) => s == q.(sent := q.sent + [v.url]) && known' == known[v.url := world.queuedAt(v.url)]
  {
    assert (picked + [v])[..|picked|] == picked;
    var r := Queue(picked, inFlight, queued.Keys, world);
    RememberOneMore(queued, r.sent, world.queuedAt, v.url);
    assert Queue(picked + [v], inFlight, queued.Keys, world) == Outcome(r, v, inFlight, queued.Keys, world);
    hide Queue, Remembered;
  }

  lemma PickedSoFar(before: seq<VodEntry>, picked: seq<VodEntry>)
    ensures before + picked[..0] == before && picked[..|picked|] == picked
    ensures forall i :: 0 <= i < |picked| ==> before + picked[..i + 1] == before + picked[..i] + [picked[i]]
  {
  }

  lemma StartOfCheck(w: map<string, int>, opted: seq<ChannelEntry>, world: World)
    ensures Progressed(w, opted, world, 0) == w && PickedUpTo(w, opted, world, 0) == []
  {
  }

  lemma CheckOfOne(w: map<string, int>, opted: seq<ChannelEntry>, world: World, n: nat)
    requires n < |opted|
    ensures world.listing(n).None? ==>
      && Stored(w, opted, world, n) == None
      && PickedUpTo(w, opted, world, n + 1) == PickedUpTo(w, opted, world, n)
    ensures world.listing(n).Some? ==>
      var (vods, c) := (world.listing(n).value, opted[n]);
      var watermark := Get(Progressed(w, opted, world, n), c.Key());
      && Stored(w, opted, world, n) == NextWatermark(vods, watermark, world.clock(n))
      && PickedUpTo(w, opted, world, n + 1)
        == PickedUpTo(w, opted, world, n) + SelectNewUploads(vods, watermark, CapturedStarts(world.Jobs(), c))
  {
  }

  class ChannelMonitor {
    var watermarks: map<string, int>
    var enqueued: map<string, nat>
    var saved: map<string, int>   // the watermark file

    constructor (file: map<string, int>)
      ensures watermarks == saved == file && enqueued == map[]
    {
      watermarks := file;
      saved := file;
      enqueued := map[];
    }

    /** Queue what was picked on one channel, skipping what is being fetched or already recorded. */
    method EnqueuePicked(picked: seq<VodEntry>, inFlight: set<string>, world: World, earlier: Report,
                         ghost before: seq<VodEntry>, ghost queued: map<string, nat>)
      returns (report: Report)
      requires earlier == Queue(before, inFlight, queued.Keys, world)
      requires enqueued == Remembered(queued, earlier.sent, world.queuedAt)
      modifies this`enqueued
      ensures report == Queue(before + picked, inFlight, queued.Keys, world)
      ensures enqueued == Remembered(queued, report.sent, world.queuedAt)
    {
      report := earlier;
      PickedSoFar(before, picked);
      hide *;
      for i := 0 to |picked|
        invariant report == Queue(before + picked[..i], inFlight, queued.Keys, world)
        invariant enqueued == Remembered(queued, report.sent, world.queuedAt)
      {
        var vod := picked[i];
        QueueOneMore(before + picked[..i], vod, inFlight, queued, world);
        report := report.(found := report.found + 1);
        if vod.url in inFlight || vod.url in enqueued {
          report := report.(inFlight := report.inFlight + 1);
        } else {
          match world.recorded(vod) {
            case Some(true) => report := report.(alreadyRecorded := report.alreadyRecorded + 1);
            case None => report := report.(lookupsFailed := report.lookupsFailed + 1);
            case Some(false) =>
              report := report.(sent := report.sent + [vod.url]);
              enqueued := enqueued[vod.url := world.queuedAt(vod.url)];
          }
        }
      }
    }

    method CheckUploads(channels: seq<ChannelEntry>, world: World) returns (report: Report)
      modifies this
      ensures var (before, round) := (Memory(old(watermarks), old(enqueued)), Round(channels, world));
        && Memory(watermarks, enqueued) == before.After(round)
        && report == before.ReportOf(round)
      ensures saved == FileAfter(old(saved), Memory(old(watermarks), old(enqueued)), Round(channels, world))
    {
      var opted := OptedInAmong(channels);
      var optedKeys := KeysOf(opted);
      report := NOTHING;
      ghost var start := watermarks;
      FewerMeansForgotten(watermarks, optedKeys);
      var before := |watermarks|;
      watermarks := Retained(watermarks, optedKeys);
      var dirty := |watermarks| != before;
      if opted == [] {
        if dirty {
          saved := watermarks;
        }
        return;
      }
      if !world.hasStore {
        return;
      }
      var inFlight := InFlight(world.Jobs());
      enqueued := StillQueued(enqueued, Completed(world.Jobs()), world.instant);
      report, dirty := CheckEach(opted, inFlight, world, dirty, start);
      if dirty {
        saved := watermarks;
      }
    }

    /** The loop over the opted-in channels. */
    method CheckEach(opted: seq<ChannelEntry>, inFlight: set<string>, world: World, forgot: bool,
                     ghost start: map<string, int>)
      returns (report: Report, dirty: bool)
      requires inFlight == InFlight(world.Jobs())
      requires watermarks == Retained(start, KeysOf(opted)) && (forgot <==> watermarks != start)
      modifies this`watermarks, this`enqueued
      ensures watermarks == Progressed(old(watermarks), opted, world, |opted|)
      ensures dirty <==> watermarks != start
      ensures report == Queue(PickedUpTo(old(watermarks), opted, world, |opted|), inFlight, old(enqueued).Keys, world)
      ensures enqueued == Remembered(old(enqueued), report.sent, world.queuedAt)
    {
      report := NOTHING;
      dirty := forgot;
      ghost var w, queued := watermarks, enqueued;
      assert Queue([], inFlight, queued.Keys, world) == NOTHING;
      assert Remembered(queued, [], world.queuedAt) == queued;
      hide *;
      StartOfCheck(w, opted, world);
      for i := 0 to |opted|
        invariant watermarks == Progressed(w, opted, world, i)
        invariant dirty <==> watermarks != start
        invariant report == Queue(PickedUpTo(w, opted, world, i), inFlight, queued.Keys, world)
        invariant enqueued == Remembered(queued, report.sent, world.queuedAt)
      {
        ChangesAccumulate(start, opted, world, i);
        var stored;
        report, stored := CheckChannel(opted, i, inFlight, world, report, w, queued);
        dirty := dirty || stored;
      }
    }

    /** One opted-in channel; a listing that cannot be fetched leaves everything as it was. */
    method CheckChannel(opted: seq<ChannelEntry>, i: nat, inFlight: set<string>, world: World, earlier: Report,
                        ghost w: map<string, int>, ghost queued: map<string, nat>)
      returns (report: Report, stored: bool)
      requires i < |opted| && watermarks == Progressed(w, opted, world, i)
      requires earlier == Queue(PickedUpTo(w, opted, world, i), inFlight, queued.Keys, world)
      requires enqueued == Remembered(queued, earlier.sent, world.queuedAt)
      modifies this`watermarks, this`enqueued
      ensures watermarks == Progressed(w, opted, world, i + 1)
      ensures stored <==> Stored(w, opted, world, i).Some?
      ensures report == Queue(PickedUpTo(w, opted, world, i + 1), inFlight, queued.Keys, world)
      ensures enqueued == Remembered(queued, report.sent, world.queuedAt)
    {
      StoringChanges(w, opted, world, i);
      CheckOfOne(w, opted, world, i);
      hide *;
      var c := opted[i];
      report, stored := earlier, false;
      if world.listing(i).Some? {
        var vods, key := world.listing(i).value, c.Key();
        var watermark := Get(watermarks, key);
        var picked := SelectNewUploads(vods, watermark, CapturedStarts(world.Jobs(), c));
        report := EnqueuePicked(picked, inFlight, world, report, PickedUpTo(w, opted, world, i), queued);
        var next := NextWatermark(vods, watermark, world.clock(i));
        if next.Some? {
          watermarks := watermarks[key := next.value];
          stored := true;
        }
      }
    }
  }
}
