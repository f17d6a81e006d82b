/**
 * The de-duplicating poll: one firing of the interval callback checks the
 * latest video of every tracked channel against the ledger, and the
 * constructor's re-seeding marks every channel's latest video seen.
 * Fetches settle one after another, in registry order; each settlement
 * consults the ledger as it stands when it settles.
 */
module Poll {
  import opened Wrappers
  import opened Feed
  import opened Ledger
  import opened Reports

  /** The ledger after some settlements, and the events they emitted. */
  datatype Step = Step(cache: Cache, events: seq<Event>)

  /** The `.then` callback of one channel's check: a video not yet seen is marked and emitted. */
  function CheckChannel(cache: Cache, channelID: string, outcome: FetchOutcome): Step
  {
    match LatestVideo(channelID, outcome)
    case Ok(Some(v)) =>
      if v.id in cache then Step(cache, [])
      else Step(cache[v.id := Seen(v.id)], [NewVideo(v)])
    case _ => Step(cache, [])
  }

  /** One poll tick over `channels`, the fetch of `channels[i]` settling with `outcomes[i]`. */
  function CheckAll(cache: Cache, channels: seq<string>, outcomes: seq<FetchOutcome>): Step
    requires |channels| == |outcomes|
    decreases |channels|
  {
    if |channels| == 0 then Step(cache, [])
    else
      var n := |channels| - 1;
      var s := CheckAll(cache, channels[..n], outcomes[..n]);
      var t := CheckChannel(s.cache, channels[n], outcomes[n]);
      Step(t.cache, s.events + t.events)
  }

  /** A tick over the first `i + 1` channels is the tick over the first `i` followed by the check of channel `i`. */
  lemma CheckAllStep(cache: Cache, channels: seq<string>, outcomes: seq<FetchOutcome>, i: nat)
    requires |channels| == |outcomes| && i < |channels|
    ensures var s := CheckAll(cache, channels[..i], outcomes[..i]);
      var t := CheckChannel(s.cache, channels[i], outcomes[i]);
      CheckAll(cache, channels[..i + 1], outcomes[..i + 1]) == Step(t.cache, s.events + t.events)
  {
    assert channels[..i + 1][..i] == channels[..i] && outcomes[..i + 1][..i] == outcomes[..i];
  }

  /**
   * One channel's check changes nothing and emits nothing when its fetch
   * fails, gives no video or gives one already in the ledger; otherwise
   * it emits one new video whose id the ledger lacked and marks that id
   * seen.
   */
  lemma CheckChannelShape(cache: Cache, channelID: string, outcome: FetchOutcome)
    ensures LatestId(channelID, outcome).None? ==> CheckChannel(cache, channelID, outcome) == Step(cache, [])
    ensures LatestId(channelID, outcome).Some? && LatestId(channelID, outcome).value in cache ==>
      CheckChannel(cache, channelID, outcome) == Step(cache, [])
    ensures var t := CheckChannel(cache, channelID, outcome);
      || (t.events == [] && t.cache == cache)
      || (&& |t.events| == 1 && t.events[0].NewVideo?
          && t.events[0].video.id !in cache
          && t.cache == cache[t.events[0].video.id := Seen(t.events[0].video.id)])
  {
  }

  /** A tick only adds ledger entries, one per video it reports. */
  lemma {:induction false} CheckAllCache(cache: Cache, channels: seq<string>, outcomes: seq<FetchOutcome>)
    requires |channels| == |outcomes|
    ensures var r := CheckAll(cache, channels, outcomes);
      r.cache == cache + SeenAll(NewVideoIds(r.events))
    decreases |channels|
  {
    if |channels| == 0 {
      SeenAllEmpty(cache);
    } else {
      var n := |channels| - 1;
      CheckAllCache(cache, channels[..n], outcomes[..n]);
      var s := CheckAll(cache, channels[..n], outcomes[..n]);
      var t := CheckChannel(s.cache, channels[n], outcomes[n]);
      CheckChannelShape(s.cache, channels[n], outcomes[n]);
      if t.events != [] {
        var v := t.events[0].video;
        assert t.events == [NewVideo(v)];
        assert (s.events + t.events)[..|s.events|] == s.events;
        assert NewVideoIds(s.events + t.events) == NewVideoIds(s.events) + {v.id};
        SeenAllInsert(cache, NewVideoIds(s.events), v.id);
      } else {
        assert s.events + t.events == s.events;
      }
    }
  }

  /**
   * A tick reports new videos only, each with an id the ledger did not
   * hold before and holds afterwards.
   */
  lemma {:induction false} CheckAllLedger(cache: Cache, channels: seq<string>, outcomes: seq<FetchOutcome>)
    requires |channels| == |outcomes|
    ensures var r := CheckAll(cache, channels, outcomes);
      forall i :: 0 <= i < |r.events| ==>
        r.events[i].NewVideo? && r.events[i].video.id !in cache && r.events[i].video.id in r.cache
    decreases |channels|
  {
    if |channels| > 0 {
      var n := |channels| - 1;
      CheckAllLedger(cache, channels[..n], outcomes[..n]);
      CheckAllCache(cache, channels[..n], outcomes[..n]);
      var s := CheckAll(cache, channels[..n], outcomes[..n]);
      var t := CheckChannel(s.cache, channels[n], outcomes[n]);
      CheckChannelShape(s.cache, channels[n], outcomes[n]);
      var events := s.events + t.events;
      forall i | 0 <= i < |events|
        ensures events[i].NewVideo? && events[i].video.id !in cache && events[i].video.id in t.cache
      {
        if i < |s.events| {
          assert events[i] == s.events[i];
        } else {
          assert events[i] == t.events[0];
        }
      }
    }
  }

  /** After a tick, the latest video of every channel whose fetch gave one is in the ledger. */
  lemma {:induction false} CheckAllCovers(cache: Cache, channels: seq<string>, outcomes: seq<FetchOutcome>)
    requires |channels| == |outcomes|
    ensures forall i :: 0 <= i < |channels| && LatestId(channels[i], outcomes[i]).Some? ==>
      LatestId(channels[i], outcomes[i]).value in CheckAll(cache, channels, outcomes).cache
    ensures cache.Keys <= CheckAll(cache, channels, outcomes).cache.Keys
    decreases |channels|
  {
    if |channels| > 0 {
      var n := |channels| - 1;
      CheckAllCovers(cache, channels[..n], outcomes[..n]);
      forall i | 0 <= i < n
        ensures channels[..n][i] == channels[i] && outcomes[..n][i] == outcomes[i]
      {
      }
    }
  }

  /** A tick in which every latest video is already in the ledger emits nothing and changes nothing. */
  lemma {:induction false} CheckAllQuiet(cache: Cache, channels: seq<string>, outcomes: seq<FetchOutcome>)
    requires |channels| == |outcomes|
    requires forall i :: 0 <= i < |channels| && LatestId(channels[i], outcomes[i]).Some? ==>
      LatestId(channels[i], outcomes[i]).value in cache
    ensures CheckAll(cache, channels, outcomes) == Step(cache, [])
    decreases |channels|
  {
    if |channels| > 0 {
      var n := |channels| - 1;
      forall i | 0 <= i < n && LatestId(channels[..n][i], outcomes[..n][i]).Some?
        ensures LatestId(channels[..n][i], outcomes[..n][i]).value in cache
      {
        assert channels[..n][i] == channels[i] && outcomes[..n][i] == outcomes[i];
      }
      CheckAllQuiet(cache, channels[..n], outcomes[..n]);
    }
  }

  /** A second tick that sees the same feeds as the first emits nothing and leaves the ledger alone. */
  lemma TickTwiceIsQuiet(cache: Cache, channels: seq<string>, outcomes: seq<FetchOutcome>)
    requires |channels| == |outcomes|
    ensures var r := CheckAll(cache, channels, outcomes);
      CheckAll(r.cache, channels, outcomes) == Step(r.cache, [])
  {
    CheckAllCovers(cache, channels, outcomes);
    CheckAllQuiet(CheckAll(cache, channels, outcomes).cache, channels, outcomes);
  }

  /** Some channel's fetch gives a latest video with id `id`. */
  predicate LatestIs(channels: seq<string>, outcomes: seq<FetchOutcome>, id: string)
    requires |channels| == |outcomes|
  {
    exists i :: 0 <= i < |channels| && LatestId(channels[i], outcomes[i]) == Some(id)
  }

  /** Whether some channel gives `id` is decided by the channels before the last one, or the last one. */
  lemma LatestIsSnoc(channels: seq<string>, outcomes: seq<FetchOutcome>, id: string)
    requires |channels| == |outcomes| > 0
    ensures var n := |channels| - 1;
      LatestIs(channels, outcomes, id)
        == (LatestIs(channels[..n], outcomes[..n], id) || LatestId(channels[n], outcomes[n]) == Some(id))
  {
    var n := |channels| - 1;
    if LatestIs(channels, outcomes, id) {
      var i :| 0 <= i < |channels| && LatestId(channels[i], outcomes[i]) == Some(id);
      if i < n {
        assert channels[..n][i] == channels[i] && outcomes[..n][i] == outcomes[i];
      }
    }
    if LatestIs(channels[..n], outcomes[..n], id) {
      var i :| 0 <= i < n && LatestId(channels[..n][i], outcomes[..n][i]) == Some(id);
      assert channels[..n][i] == channels[i] && outcomes[..n][i] == outcomes[i];
    }
  }

  /**
   * A tick reports a video id exactly once when some channel's latest
   * video has it and the ledger did not hold it, and never otherwise.
   */
  lemma {:induction false} CheckAllEmitsOnce(cache: Cache, channels: seq<string>, outcomes: seq<FetchOutcome>, id: string)
    requires |channels| == |outcomes|
    ensures Emissions(CheckAll(cache, channels, outcomes).events, id)
      == if id !in cache && LatestIs(channels, outcomes, id) then 1 else 0
    decreases |channels|
  {
    if |channels| > 0 {
      var n := |channels| - 1;
      CheckAllEmitsOnce(cache, channels[..n], outcomes[..n], id);
      CheckAllCache(cache, channels[..n], outcomes[..n]);
      LatestIsSnoc(channels, outcomes, id);
      var s := CheckAll(cache, channels[..n], outcomes[..n]);
      var t := CheckChannel(s.cache, channels[n], outcomes[n]);
      NewVideoIdsReported(s.events, id);
      assert id in s.cache <==> id in cache || LatestIs(channels[..n], outcomes[..n], id);
      CheckChannelEmits(s.cache, channels[n], outcomes[n], id);
      EmissionsAppend(s.events, t.events, id);
    }
  }

  /** One channel's check reports `id` once when its latest video has that id and the ledger lacks it. */
  lemma CheckChannelEmits(cache: Cache, channelID: string, outcome: FetchOutcome, id: string)
    ensures Emissions(CheckChannel(cache, channelID, outcome).events, id)
      == if LatestId(channelID, outcome) == Some(id) && id !in cache then 1 else 0
  {
    var t := CheckChannel(cache, channelID, outcome);
    if t.events != [] {
      assert t.events[..0] == [];
    }
  }

  /** The constructor's `.then` callback for one channel: its latest video is marked seen, silently. */
  function SeedChannel(cache: Cache, channelID: string, outcome: FetchOutcome): (seeded: Cache)
    ensures forall k :: k in seeded <==> k in cache || LatestId(channelID, outcome) == Some(k)
  {
    match LatestId(channelID, outcome)
    case Some(id) => cache[id := Seen(id)]
    case None => cache
  }

  /** The constructor's re-seeding over the rehydrated channels. */
  function Seed(cache: Cache, channels: seq<string>, outcomes: seq<FetchOutcome>): (seeded: Cache)
    requires |channels| == |outcomes|
    ensures cache.Keys <= seeded.Keys
    decreases |channels|
  {
    if |channels| == 0 then cache
    else
      var n := |channels| - 1;
      SeedChannel(Seed(cache, channels[..n], outcomes[..n]), channels[n], outcomes[n])
  }

  /**
   * Re-seeding adds exactly the latest video id of every channel whose
   * fetch gave one, so after a restart the ledger holds only those and
   * the entries it started with.
   */
  lemma {:induction false} SeedKeys(cache: Cache, channels: seq<string>, outcomes: seq<FetchOutcome>)
    requires |channels| == |outcomes|
    ensures forall k :: k in Seed(cache, channels, outcomes) <==> k in cache || LatestIs(channels, outcomes, k)
    ensures WellFormed(cache) ==> WellFormed(Seed(cache, channels, outcomes))
    decreases |channels|
  {
    if |channels| > 0 {
      var n := |channels| - 1;
      SeedKeys(cache, channels[..n], outcomes[..n]);
      forall k
        ensures LatestIs(channels, outcomes, k)
          == (LatestIs(channels[..n], outcomes[..n], k) || LatestId(channels[n], outcomes[n]) == Some(k))
      {
        LatestIsSnoc(channels, outcomes, k);
      }
    }
  }

  /**
   * After a restart, a tick that sees the feeds the re-seeding saw reports
   * nothing: a video already reported before the restart and still the
   * latest is not reported again.
   */
  lemma RestartThenTickIsQuiet(cache: Cache, channels: seq<string>, outcomes: seq<FetchOutcome>)
    requires |channels| == |outcomes|
    ensures var seeded := Seed(cache, channels, outcomes);
      CheckAll(seeded, channels, outcomes) == Step(seeded, [])
  {
    SeedKeys(cache, channels, outcomes);
    var seeded := Seed(cache, channels, outcomes);
    forall i | 0 <= i < |channels| && LatestId(channels[i], outcomes[i]).Some?
      ensures LatestId(channels[i], outcomes[i]).value in seeded
    {
      assert LatestIs(channels, outcomes, LatestId(channels[i], outcomes[i]).value);
    }
    CheckAllQuiet(seeded, channels, outcomes);
  }
}
