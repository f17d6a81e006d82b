/**
 * The `YouTubeNotifier` object: its channel list, its cache, its interval
 * timer and the log of the events it emits. Fetch outcomes are inputs of
 * the operations that fetch; timers are handles that are either active or
 * cleared, and a firing of the active one is an explicit `Tick`.
 */
module Notifier {
  import opened Wrappers
  import opened Feed
  import opened Ledger
  import opened Reports
  import opened Poll
  import opened Batch

  /**
   * The check interval in seconds for the constructor's argument (`None`
   * when it is left out): 60 for a missing or falsy argument, at least 50
   * otherwise.
   */
  function CheckInterval(requested: Option<int>): (seconds: int)
    ensures seconds >= 50
    ensures requested == None || requested == Some(0) ==> seconds == 60
    ensures requested.Some? && requested.value != 0 && requested.value < 50 ==> seconds == 50
    ensures requested.Some? && requested.value >= 50 ==> seconds == requested.value
  {
    match requested
    case None => 60
    case Some(n) => if n == 0 then 60 else if n < 50 then 50 else n
  }

  /** The channel list read back from the cache at start-up: the stored one, or none. */
  function Rehydrated(stored: Option<seq<string>>): (channels: seq<string>)
    ensures stored.Some? ==> channels == stored.value
    ensures stored.None? ==> channels == []
  {
    match stored
    case None => []
    case Some(ids) => ids
  }

  class YouTubeNotifier {
    /** Seconds between two checks. */
    const checkInterval: int
    /** `#channels`: the tracked channel ids, in insertion order. */
    var channels: seq<string>
    /** `#cacheStorage`: the seen-id ledger and the reserved channel-list entry. */
    var cache: Cache
    /** `#intervalID`: the handle of the last interval set, if any. */
    var intervalID: Option<nat>
    /** The interval handles that have been set and not cleared. */
    var activeTimers: set<nat>
    /** How many interval handles have been created. */
    var timersCreated: nat
    /** Every event emitted, oldest first. */
    var log: seq<Event>

    ghost predicate Valid()
      reads this
    {
      && checkInterval >= 50
      && WellFormed(cache)
      && (intervalID.Some? ==> intervalID.value < timersCreated)
      && (activeTimers == {} || (intervalID.Some? && activeTimers == {intervalID.value}))
    }

    /** The interval callback is scheduled. */
    predicate Running()
      reads this
    {
      intervalID.Some? && intervalID.value in activeTimers
    }

    /**
     * `new YouTubeNotifier(checkInterval)` (youtube-notifier.js:69-89): the
     * channel list is taken from the cache, the cache is cleared and given
     * back the list, checking starts, and then the fetches of the
     * rehydrated channels settle with `seedOutcomes`, marking every latest
     * video seen.
     */
    constructor (requested: Option<int>, stored: Option<seq<string>>, seedOutcomes: seq<FetchOutcome>)
      requires |seedOutcomes| == |Rehydrated(stored)|
      ensures Valid() && Running() && |activeTimers| == 1
      ensures checkInterval == CheckInterval(requested)
      ensures channels == Rehydrated(stored)
      ensures cache == Seed(map[ChannelsKey := ChannelsArray], channels, seedOutcomes)
      ensures log == [Info(StoppedMessage), Info(StartedMessage)]
    {
      checkInterval := CheckInterval(requested);
      channels := Rehydrated(stored);
      var cleared: Cache := map[];
      cache := cleared[ChannelsKey := ChannelsArray];
      intervalID := None;
      activeTimers := {};
      timersCreated := 0;
      log := [];
      new;
      Start();
      ghost var initial := cache;
      ghost var timer, timers, created, started := intervalID, activeTimers, timersCreated, log;
      var i := 0;
      while i < |channels|
        invariant 0 <= i <= |channels|
        invariant channels == Rehydrated(stored) && checkInterval == CheckInterval(requested)
        invariant cache == Seed(initial, channels[..i], seedOutcomes[..i])
        invariant WellFormed(cache)
        invariant intervalID == timer && activeTimers == timers
        invariant timersCreated == created && log == started
      {
        assert channels[..i + 1][..i] == channels[..i] && seedOutcomes[..i + 1][..i] == seedOutcomes[..i];
        match LatestId(channels[i], seedOutcomes[i]) {
          case Some(id) =>
            cache := cache[id := Seen(id)];
          case None =>
        }
        i := i + 1;
      }
      assert channels[..i] == channels && seedOutcomes[..i] == seedOutcomes;
    }

    /**
     * `start()` (youtube-notifier.js:130-144): stops first, then sets a
     * fresh interval, so exactly one interval is active afterwards.
     */
    method Start()
      requires Valid()
      modifies this`intervalID, this`activeTimers, this`timersCreated, this`log
      ensures Valid() && Running()
      ensures activeTimers == {intervalID.value} && intervalID == Some(old(timersCreated))
      ensures timersCreated == old(timersCreated) + 1
      ensures log == old(log) + [Info(StoppedMessage), Info(StartedMessage)]
    {
      Stop();
      intervalID := Some(timersCreated);
      activeTimers := activeTimers + {timersCreated};
      timersCreated := timersCreated + 1;
      log := log + [Info(StartedMessage)];
    }

    /**
     * `stop()` (youtube-notifier.js:149-152): clears the last interval set
     * (a cleared one stays cleared) and always emits the stop message.
     */
    method Stop()
      requires Valid()
      modifies this`activeTimers, this`log
      ensures Valid() && !Running()
      ensures activeTimers == {}
      ensures log == old(log) + [Info(StoppedMessage)]
    {
      log := log + [Info(StoppedMessage)];
      if intervalID.Some? {
        activeTimers := activeTimers - {intervalID.value};
      }
    }

    /**
     * One firing of the interval (youtube-notifier.js:134-140): the fetch
     * of `channels[i]` settles with `outcomes[i]`, in registry order, and
     * each latest video not in the ledger is marked and emitted.
     */
    method Tick(outcomes: seq<FetchOutcome>)
      requires Valid() && Running()
      requires |outcomes| == |channels|
      modifies this`cache, this`log
      ensures Valid()
      ensures cache == CheckAll(old(cache), channels, outcomes).cache
      ensures log == old(log) + CheckAll(old(cache), channels, outcomes).events
    {
      var i := 0;
      while i < |channels|
        invariant 0 <= i <= |channels|
        invariant WellFormed(cache)
        invariant cache == CheckAll(old(cache), channels[..i], outcomes[..i]).cache
        invariant log == old(log) + CheckAll(old(cache), channels[..i], outcomes[..i]).events
      {
        CheckAllStep(old(cache), channels, outcomes, i);
        ghost var seen, events := cache, log;
        var video := LatestVideo(channels[i], outcomes[i]);
        if video.Ok? && video.value.Some? && video.value.value.id !in cache {
          var v := video.value.value;
          cache := cache[v.id := Seen(v.id)];
          log := log + [NewVideo(v)];
        }
        assert log == events + CheckChannel(seen, channels[i], outcomes[i]).events;
        i := i + 1;
      }
      assert channels[..i] == channels && outcomes[..i] == outcomes;
    }

    /**
     * `addChannels(...ids)` (youtube-notifier.js:160-186), the fetch for
     * `ids[i]` settling with `outcomes[i]`: every id is first tested
     * against the list as it was before the call, the list entry is
     * written back, and then the untracked ids settle in input order.
     */
    method AddChannels(ids: seq<string>, outcomes: seq<FetchOutcome>) returns (results: seq<AdditionResult>)
      requires Valid()
      requires |outcomes| == |ids|
      modifies this`channels, this`cache, this`log
      ensures Valid()
      ensures results == AddResults(old(channels), ids, outcomes)
      ensures channels == old(channels) + Admitted(results)
      ensures cache == old(cache)[ChannelsKey := ChannelsArray] + SeenAll(MarkedIds(results))
      ensures log == old(log) + AlreadyAddedInfos(results) + SettledEvents(results)
    {
      var before := channels;
      // Every mapper runs up to its first await: the tracked ids resolve at once.
      AnnounceTracked(before, ids, outcomes);
      cache := cache[ChannelsKey := ChannelsArray];
      // The awaited fetches settle.
      results := SettleAdditions(before, ids, outcomes);
      SeenAllWellFormed(old(cache)[ChannelsKey := ChannelsArray], MarkedIds(results));
    }

    /** The first phase of `addChannels`: one info event per id already tracked. */
    method AnnounceTracked(before: seq<string>, ids: seq<string>, outcomes: seq<FetchOutcome>)
      requires |outcomes| == |ids|
      modifies this`log
      ensures log == old(log) + AlreadyAddedInfos(AddResults(before, ids, outcomes))
    {
      ghost var all := AddResults(before, ids, outcomes);
      var i := 0;
      while i < |ids|
        invariant 0 <= i <= |ids|
        invariant log == old(log) + AlreadyAddedInfos(all[..i])
      {
        AnnounceStep(before, ids, outcomes, i);
        if ids[i] in before {
          log := log + [Info(AlreadyAddedMessage(ids[i]))];
        }
        i := i + 1;
      }
      assert all[..i] == all;
    }

    /**
     * The second phase of `addChannels`: the fetches of the ids untracked
     * before the call settle in input order, each success appending its id
     * and marking and reporting its latest video, each failure reporting
     * an error.
     */
    method SettleAdditions(before: seq<string>, ids: seq<string>, outcomes: seq<FetchOutcome>)
      returns (results: seq<AdditionResult>)
      requires |outcomes| == |ids|
      requires channels == before
      modifies this`channels, this`cache, this`log
      ensures results == AddResults(before, ids, outcomes)
      ensures channels == before + Admitted(results)
      ensures cache == old(cache) + SeenAll(MarkedIds(results))
      ensures log == old(log) + SettledEvents(results)
    {
      ghost var all := AddResults(before, ids, outcomes);
      SeenAllEmpty(old(cache));
      results := [];
      var i := 0;
      while i < |ids|
        invariant 0 <= i <= |ids|
        invariant results == all[..i]
        invariant channels == before + Admitted(results)
        invariant cache == old(cache) + SeenAll(MarkedIds(results))
        invariant log == old(log) + SettledEvents(results)
      {
        var r := SettleOne(before, ids[i], outcomes[i]);
        SettleStep(before, results, r, ids[i], old(cache), old(log));
        PrefixStep(before, ids, outcomes, i);
        results := results + [r];
        i := i + 1;
      }
      assert all[..i] == all;
    }

    /**
     * One settled fetch of `addChannels` for an id untracked before the
     * call: a success appends the id and, when the feed has an item, marks
     * its video seen and emits it; a failure emits an error.
     */
    method SettleOne(before: seq<string>, id: string, outcome: FetchOutcome) returns (r: AdditionResult)
      modifies this`channels, this`cache, this`log
      ensures r == AddResult(before, id, outcome)
      ensures channels == old(channels) + if r.Success? then [id] else []
      ensures cache == if r.Success? && r.videoInfo.Some? then old(cache)[r.videoInfo.value.id := Seen(r.videoInfo.value.id)] else old(cache)
      ensures log == old(log) + SettledEvent(r)
    {
      r := AddResult(before, id, outcome);
      if r.Success? {
        channels := channels + [id];
        if r.videoInfo.Some? {
          var v := r.videoInfo.value;
          cache := cache[v.id := Seen(v.id)];
          log := log + [NewVideo(v)];
        }
      } else if r.AddError? {
        log := log + [Error(FailedToAddMessage(id), r.error)];
      }
    }

    /**
     * `removeChannels(...ids)` (youtube-notifier.js:194-210): each id in
     * turn is filtered out of the list when tracked, the list entry is
     * written back and the cache key equal to the id is deleted.
     */
    method RemoveChannels(ids: seq<string>) returns (results: seq<RemovalResult>)
      requires Valid()
      modifies this`channels, this`cache, this`log
      ensures Valid()
      ensures var r := RemoveAll(old(channels), old(cache), ids);
        channels == r.channels && cache == r.cache && log == old(log) + r.events && results == r.results
    {
      ghost var before := channels;
      ghost var cache0 := cache;
      results := [];
      var i := 0;
      while i < |ids|
        invariant 0 <= i <= |ids|
        invariant WellFormed(cache)
        invariant var r := RemoveAll(before, cache0, ids[..i]);
          channels == r.channels && cache == r.cache && log == old(log) + r.events && results == r.results
      {
        assert ids[..i + 1][..i] == ids[..i];
        var id := ids[i];
        if id in channels {
          channels := Registry.Without(channels, id);
          cache := cache[ChannelsKey := ChannelsArray];
          cache := cache - {id};
          log := log + [Info(RemovedMessage(id))];
          results := results + [RemovalResult(true, id)];
        } else {
          log := log + [Info(NotFoundMessage(id))];
          results := results + [RemovalResult(false, id)];
        }
        i := i + 1;
      }
      assert ids[..i] == ids;
    }

    /**
     * `getChannelInfo(channelID)` (youtube-notifier.js:218-236): a failure
     * of either fetch is emitted as an `error` event and returned.
     */
    method GetChannelInfo(channelID: string, feed: FetchOutcome, latest: FetchOutcome) returns (info: ChannelInfo)
      modifies this`log
      ensures info == ChannelInfoOf(channelID, feed, latest)
      ensures log == old(log) + if info.ChannelFailure? then [ErrorObject(info.error)] else []
    {
      info := ChannelInfoOf(channelID, feed, latest);
      if info.ChannelFailure? {
        log := log + [ErrorObject(info.error)];
      }
    }

    /**
     * `getSubscribedChannels()` (youtube-notifier.js:243-249): one record
     * per tracked channel, in registry order; a failing channel yields a
     * failure record and does not stop the others.
     */
    method GetSubscribedChannels(feeds: seq<FetchOutcome>, latest: seq<FetchOutcome>) returns (infos: seq<ChannelInfo>)
      requires |feeds| == |channels| && |latest| == |channels|
      modifies this`log
      ensures |infos| == |channels|
      ensures forall i :: 0 <= i < |channels| ==> infos[i] == ChannelInfoOf(channels[i], feeds[i], latest[i])
      ensures log == old(log) + FailureEvents(infos)
    {
      infos := [];
      var i := 0;
      while i < |channels|
        invariant 0 <= i <= |channels|
        invariant |infos| == i
        invariant forall k :: 0 <= k < i ==> infos[k] == ChannelInfoOf(channels[k], feeds[k], latest[k])
        invariant log == old(log) + FailureEvents(infos)
      {
        var info := GetChannelInfo(channels[i], feeds[i], latest[i]);
        assert (infos + [info])[..i] == infos;
        assert FailureEvents(infos + [info])
          == FailureEvents(infos) + if info.ChannelFailure? then [ErrorObject(info.error)] else [];
        infos := infos + [info];
        i := i + 1;
      }
    }
  }

  /** The `error` events of the failure records, in order. */
  function FailureEvents(infos: seq<ChannelInfo>): seq<Event>
  {
    if |infos| == 0 then []
    else
      var last := infos[|infos| - 1];
      FailureEvents(infos[..|infos| - 1]) + if last.ChannelFailure? then [ErrorObject(last.error)] else []
  }
}
