/**
 * The batch operations on the channel list, as values.
 *
 * `addChannels` maps an async function over its ids. Each runs
 * synchronously up to its first `await`, so every "already tracked?"
 * test of a batch sees the list as it was before the batch; the pushes,
 * ledger writes and events of the ids whose fetch settles come afterwards
 * (taken here in input order). `removeChannels` maps an async function
 * with no `await`, so its ids are handled one after another, each seeing
 * the list as the previous ones left it.
 */
module Batch {
  import opened Wrappers
  import opened Feed
  import opened Ledger
  import opened Reports
  import opened Registry

  /** What the mapper of `id` resolves to, decided against the pre-batch list `before`. */
  function AddResult(before: seq<string>, id: string, outcome: FetchOutcome): (r: AdditionResult)
    ensures r.channelID == id
    ensures r.AlreadyAdded? <==> id in before
  {
    if id in before then AlreadyAdded(id, AlreadyAddedText)
    else
      match LatestVideo(id, outcome)
      case Ok(video) => Success(id, video)
      case Err(e) => AddError(id, e)
  }

  /** The array `addChannels` resolves to: one record per input id, in input order. */
  function AddResults(before: seq<string>, ids: seq<string>, outcomes: seq<FetchOutcome>): (results: seq<AdditionResult>)
    requires |outcomes| == |ids|
    ensures |results| == |ids|
  {
    seq(|ids|, i requires 0 <= i < |ids| => AddResult(before, ids[i], outcomes[i]))
  }

  /**
   * Record `i` names `ids[i]`; it is `already_added` exactly when `ids[i]`
   * was tracked before the call, a success exactly when it was not and
   * its fetch succeeded (carrying the video found, if any), and an error
   * carrying the fetch's failure otherwise.
   */
  lemma AddResultsShape(before: seq<string>, ids: seq<string>, outcomes: seq<FetchOutcome>)
    requires |outcomes| == |ids|
    ensures var results := AddResults(before, ids, outcomes);
      && |results| == |ids|
      && (forall i :: 0 <= i < |ids| ==> results[i].channelID == ids[i])
      && (forall i :: 0 <= i < |ids| ==> (results[i].AlreadyAdded? <==> ids[i] in before))
      && (forall i :: 0 <= i < |ids| ==>
            (results[i].Success? <==> ids[i] !in before && LatestVideo(ids[i], outcomes[i]).Ok?))
      && (forall i :: 0 <= i < |ids| && results[i].Success? ==>
            Ok(results[i].videoInfo) == LatestVideo(ids[i], outcomes[i]))
      && (forall i :: 0 <= i < |ids| && results[i].AddError? ==>
            Err(results[i].error) == LatestVideo(ids[i], outcomes[i]))
  {
  }

  /** The ids pushed onto the channel list: those whose record is a success, in order. */
  function Admitted(results: seq<AdditionResult>): seq<string>
  {
    if |results| == 0 then []
    else
      var last := results[|results| - 1];
      Admitted(results[..|results| - 1]) + if last.Success? then [last.channelID] else []
  }

  /** The video ids marked seen: those of the successes that found a video. */
  function MarkedIds(results: seq<AdditionResult>): set<string>
  {
    if |results| == 0 then {}
    else
      var last := results[|results| - 1];
      MarkedIds(results[..|results| - 1])
        + if last.Success? && last.videoInfo.Some? then {last.videoInfo.value.id} else {}
  }

  /** The `info` events emitted before the first `await`, one per id already tracked. */
  function AlreadyAddedInfos(results: seq<AdditionResult>): seq<Event>
  {
    if |results| == 0 then []
    else
      var last := results[|results| - 1];
      AlreadyAddedInfos(results[..|results| - 1])
        + if last.AlreadyAdded? then [Info(AlreadyAddedMessage(last.channelID))] else []
  }

  /** The event one settled fetch emits. */
  function SettledEvent(r: AdditionResult): seq<Event>
  {
    match r
    case Success(_, Some(v)) => [NewVideo(v)]
    case AddError(id, e) => [Error(FailedToAddMessage(id), e)]
    case _ => []
  }

  /** The events emitted as the fetches settle: `new_video` for a found video, `error` for a failure. */
  function SettledEvents(results: seq<AdditionResult>): seq<Event>
  {
    if |results| == 0 then []
    else SettledEvents(results[..|results| - 1]) + SettledEvent(results[|results| - 1])
  }

  /** One more settled record extends each derived part by that record's share. */
  lemma SettleSnoc(results: seq<AdditionResult>, r: AdditionResult)
    ensures Admitted(results + [r]) == Admitted(results) + if r.Success? then [r.channelID] else []
    ensures MarkedIds(results + [r])
      == MarkedIds(results) + if r.Success? && r.videoInfo.Some? then {r.videoInfo.value.id} else {}
    ensures AlreadyAddedInfos(results + [r])
      == AlreadyAddedInfos(results) + if r.AlreadyAdded? then [Info(AlreadyAddedMessage(r.channelID))] else []
    ensures SettledEvents(results + [r]) == SettledEvents(results) + SettledEvent(r)
  {
    assert (results + [r])[..|results|] == results;
  }

  /** The first `i + 1` records announce what the first `i` do, and one more info when `ids[i]` is tracked. */
  lemma AnnounceStep(before: seq<string>, ids: seq<string>, outcomes: seq<FetchOutcome>, i: nat)
    requires |outcomes| == |ids| && i < |ids|
    ensures var all := AddResults(before, ids, outcomes);
      AlreadyAddedInfos(all[..i + 1])
        == AlreadyAddedInfos(all[..i]) + if ids[i] in before then [Info(AlreadyAddedMessage(ids[i]))] else []
  {
    var all := AddResults(before, ids, outcomes);
    assert all[..i + 1] == all[..i] + [all[i]];
    SettleSnoc(all[..i], all[i]);
  }

  /** The first `i + 1` records of a batch are the first `i` and the record of `ids[i]`. */
  lemma PrefixStep(before: seq<string>, ids: seq<string>, outcomes: seq<FetchOutcome>, i: nat)
    requires |outcomes| == |ids| && i < |ids|
    ensures AddResults(before, ids, outcomes)[..i + 1]
      == AddResults(before, ids, outcomes)[..i] + [AddResult(before, ids[i], outcomes[i])]
  {
    var all := AddResults(before, ids, outcomes);
    assert all[..i + 1] == all[..i] + [all[i]];
  }

  /**
   * Settling one more record `r` of id `id` extends the list, the cache
   * and the log by exactly that record's share.
   */
  lemma SettleStep(before: seq<string>, results: seq<AdditionResult>, r: AdditionResult,
                   id: string, cache: Cache, log: seq<Event>)
    requires r.channelID == id
    ensures before + Admitted(results + [r]) == before + Admitted(results) + (if r.Success? then [id] else [])
    ensures cache + SeenAll(MarkedIds(results + [r]))
      == (if r.Success? && r.videoInfo.Some?
          then (cache + SeenAll(MarkedIds(results)))[r.videoInfo.value.id := Seen(r.videoInfo.value.id)]
          else cache + SeenAll(MarkedIds(results)))
    ensures log + SettledEvents(results + [r]) == log + SettledEvents(results) + SettledEvent(r)
  {
    SettleSnoc(results, r);
    MarkStep(cache, results, r);
  }

  /** The cache after one more settled record is the previous one with that record's mark. */
  lemma MarkStep(cache: Cache, results: seq<AdditionResult>, r: AdditionResult)
    ensures cache + SeenAll(MarkedIds(results + [r]))
      == (if r.Success? && r.videoInfo.Some?
          then (cache + SeenAll(MarkedIds(results)))[r.videoInfo.value.id := Seen(r.videoInfo.value.id)]
          else cache + SeenAll(MarkedIds(results)))
  {
    SettleSnoc(results, r);
    var marked := MarkedIds(results);
    if r.Success? && r.videoInfo.Some? {
      SeenAllInsert(cache, marked, r.videoInfo.value.id);
    } else {
      assert MarkedIds(results + [r]) == marked;
    }
  }

  /** A batch whose ids are all tracked already adds nothing, marks nothing and emits only `info` events. */
  lemma {:induction false} NothingToAdd(results: seq<AdditionResult>)
    requires forall i :: 0 <= i < |results| ==> results[i].AlreadyAdded?
    ensures Admitted(results) == [] && MarkedIds(results) == {} && SettledEvents(results) == []
    ensures |AlreadyAddedInfos(results)| == |results|
    ensures forall i :: 0 <= i < |results| ==>
      AlreadyAddedInfos(results)[i] == Info(AlreadyAddedMessage(results[i].channelID))
    decreases |results|
  {
    if |results| > 0 {
      var n := |results| - 1;
      var pre := results[..n];
      assert forall i :: 0 <= i < n ==> pre[i] == results[i];
      NothingToAdd(pre);
      var infos := AlreadyAddedInfos(results);
      assert infos == AlreadyAddedInfos(pre) + [Info(AlreadyAddedMessage(results[n].channelID))];
      forall i | 0 <= i < |results|
        ensures infos[i] == Info(AlreadyAddedMessage(results[i].channelID))
      {
        if i < n {
          assert infos[i] == AlreadyAddedInfos(pre)[i];
        }
      }
    }
  }

  /**
   * `addChannels` of ids all tracked: every record is `already_added`, the
   * list keeps its contents, nothing is marked seen and only `info`
   * events are emitted.
   */
  lemma AddTrackedOnly(before: seq<string>, ids: seq<string>, outcomes: seq<FetchOutcome>)
    requires |outcomes| == |ids|
    requires forall i :: 0 <= i < |ids| ==> ids[i] in before
    ensures var results := AddResults(before, ids, outcomes);
      && (forall i :: 0 <= i < |ids| ==> results[i] == AlreadyAdded(ids[i], AlreadyAddedText))
      && before + Admitted(results) == before
      && MarkedIds(results) == {}
      && SettledEvents(results) == []
      && |AlreadyAddedInfos(results)| == |ids|
      && forall i :: 0 <= i < |ids| ==> AlreadyAddedInfos(results)[i] == Info(AlreadyAddedMessage(ids[i]))
  {
    var results := AddResults(before, ids, outcomes);
    AddResultsShape(before, ids, outcomes);
    NothingToAdd(results);
    assert before + [] == before;
  }

  /**
   * `addChannels` of one untracked id: a successful fetch appends it and,
   * when there is a video, marks it seen and emits it; a failed fetch
   * leaves the list alone and emits an `error` event.
   */
  lemma AddOneUntracked(before: seq<string>, id: string, outcome: FetchOutcome)
    requires id !in before
    ensures var results := AddResults(before, [id], [outcome]);
      && AlreadyAddedInfos(results) == []
      && match LatestVideo(id, outcome)
         case Ok(video) =>
           && results == [Success(id, video)]
           && before + Admitted(results) == before + [id]
           && MarkedIds(results) == (if video.Some? then {video.value.id} else {})
           && SettledEvents(results) == (if video.Some? then [NewVideo(video.value)] else [])
         case Err(e) =>
           && results == [AddError(id, e)]
           && before + Admitted(results) == before
           && MarkedIds(results) == {}
           && SettledEvents(results) == [Error(FailedToAddMessage(id), e)]
  {
    var results := AddResults(before, [id], [outcome]);
    AddResultsShape(before, [id], [outcome]);
    assert results[..0] == [];
    assert before + [] == before;
  }

  /** The admitted ids are the ids of the successes, and repeat none when the ids of the records repeat none. */
  lemma {:induction false} AdmittedIds(results: seq<AdditionResult>)
    ensures forall x :: x in Admitted(results) ==>
      exists i :: 0 <= i < |results| && results[i].Success? && results[i].channelID == x
    ensures (forall i, j :: 0 <= i < j < |results| ==> results[i].channelID != results[j].channelID)
      ==> Distinct(Admitted(results))
    decreases |results|
  {
    if |results| > 0 {
      var n := |results| - 1;
      AdmittedIds(results[..n]);
      forall x | x in Admitted(results[..n])
        ensures exists i :: 0 <= i < |results| && results[i].Success? && results[i].channelID == x
      {
        var i :| 0 <= i < n && results[..n][i].Success? && results[..n][i].channelID == x;
        assert results[i] == results[..n][i];
      }
      if forall i, j :: 0 <= i < j < |results| ==> results[i].channelID != results[j].channelID {
        assert forall i, j :: 0 <= i < j < n ==> results[..n][i].channelID != results[..n][j].channelID;
        if results[n].Success? {
          forall x | x in Admitted(results[..n]) ensures x != results[n].channelID {
            var i :| 0 <= i < n && results[..n][i].Success? && results[..n][i].channelID == x;
            assert results[i] == results[..n][i];
          }
          DistinctSnoc(Admitted(results[..n]), results[n].channelID);
        }
      }
    }
  }

  /**
   * A batch of distinct ids on a list without repeats gives a list without
   * repeats: every admitted id was untracked before the batch.
   */
  lemma AddKeepsDistinct(before: seq<string>, ids: seq<string>, outcomes: seq<FetchOutcome>)
    requires |outcomes| == |ids|
    requires Distinct(before) && Distinct(ids)
    ensures Distinct(before + Admitted(AddResults(before, ids, outcomes)))
  {
    var results := AddResults(before, ids, outcomes);
    AddResultsShape(before, ids, outcomes);
    AdmittedIds(results);
    var added := Admitted(results);
    forall x | x in added ensures x !in before {
      var i :| 0 <= i < |results| && results[i].Success? && results[i].channelID == x;
    }
    var all := before + added;
    forall i, j | 0 <= i < j < |all| ensures all[i] != all[j] {
      if j < |before| {
      } else if i >= |before| {
        assert all[i] == added[i - |before|] && all[j] == added[j - |before|];
      } else {
        assert all[j] == added[j - |before|];
        assert all[j] in added;
      }
    }
  }

  /**
   * The stale `includes` test: the same untracked id twice in one batch,
   * both fetches succeeding, is pushed twice.
   */
  lemma AddSameIdTwice(before: seq<string>, id: string, first: FetchOutcome, second: FetchOutcome)
    requires id !in before
    requires LatestVideo(id, first).Ok? && LatestVideo(id, second).Ok?
    ensures Admitted(AddResults(before, [id, id], [first, second])) == [id, id]
    ensures !Distinct(before + Admitted(AddResults(before, [id, id], [first, second])))
  {
    var results := AddResults(before, [id, id], [first, second]);
    AddResultsShape(before, [id, id], [first, second]);
    assert results[0].Success? && results[0].channelID == id;
    assert results[1].Success? && results[1].channelID == id;
    assert results[..1][..0] == [];
    assert Admitted(results[..1]) == [id];
    assert results[..|results| - 1] == results[..1];
    var all := before + [id, id];
    assert all[|before|] == all[|before| + 1];
  }

  /** The list, the cache, the emitted events and the records after some removals. */
  datatype Removal = Removal(channels: seq<string>, cache: Cache, events: seq<Event>, results: seq<RemovalResult>)

  /** The mapper of `removeChannels` for one id (youtube-notifier.js:196-206). */
  function RemoveOne(s: Removal, id: string): Removal
  {
    if id in s.channels then
      Removal(Without(s.channels, id),
              s.cache[ChannelsKey := ChannelsArray] - {id},
              s.events + [Info(RemovedMessage(id))],
              s.results + [RemovalResult(true, id)])
    else
      Removal(s.channels, s.cache,
              s.events + [Info(NotFoundMessage(id))],
              s.results + [RemovalResult(false, id)])
  }

  /** `removeChannels(...ids)`: the ids handled one after another. */
  function RemoveAll(channels: seq<string>, cache: Cache, ids: seq<string>): Removal
    decreases |ids|
  {
    if |ids| == 0 then Removal(channels, cache, [], [])
    else RemoveOne(RemoveAll(channels, cache, ids[..|ids| - 1]), ids[|ids| - 1])
  }

  /** Removal drops every occurrence of the removed ids and keeps the other ids in their order. */
  lemma {:induction false} RemoveAllList(channels: seq<string>, cache: Cache, ids: seq<string>)
    ensures RemoveAll(channels, cache, ids).channels == Keep(channels, ids)
    decreases |ids|
  {
    if |ids| == 0 {
      KeepNothing(channels);
    } else {
      var n := |ids| - 1;
      var id := ids[n];
      var s := RemoveAll(channels, cache, ids[..n]);
      if id !in s.channels {
        WithoutAbsent(s.channels, id);
      }
      calc {
        RemoveAll(channels, cache, ids).channels;
        Without(s.channels, id);
        { RemoveAllList(channels, cache, ids[..n]); }
        Without(Keep(channels, ids[..n]), id);
        { KeepWithout(channels, ids[..n], id); }
        Keep(channels, ids[..n] + [id]);
        { assert ids[..n] + [id] == ids; }
        Keep(channels, ids);
      }
    }
  }

  /** The record of the last id is a success exactly when it was tracked and no earlier id of the call removed it. */
  lemma RemoveLast(channels: seq<string>, cache: Cache, ids: seq<string>)
    requires |ids| > 0
    ensures var n := |ids| - 1;
      RemoveAll(channels, cache, ids).results
        == RemoveAll(channels, cache, ids[..n]).results + [RemovalResult(ids[n] in channels && ids[n] !in ids[..n], ids[n])]
  {
    RemoveAllList(channels, cache, ids[..|ids| - 1]);
  }

  /** Removal resolves to one record per id. */
  lemma {:induction false} RemoveAllLength(channels: seq<string>, cache: Cache, ids: seq<string>)
    ensures |RemoveAll(channels, cache, ids).results| == |ids|
    decreases |ids|
  {
    if |ids| > 0 {
      RemoveAllLength(channels, cache, ids[..|ids| - 1]);
    }
  }

  /** Element `i` of a sequence with one element appended. */
  lemma SnocAt<T>(s: seq<T>, x: T, i: nat)
    requires i <= |s|
    ensures |s + [x]| == |s| + 1
    ensures (s + [x])[i] == if i < |s| then s[i] else x
  {
  }

  /** Record `i` of a removal is a success exactly when `ids[i]` was tracked and no earlier id of the call removed it. */
  lemma {:induction false} RemoveAllResultAt(channels: seq<string>, cache: Cache, ids: seq<string>, i: nat)
    requires i < |ids|
    ensures |RemoveAll(channels, cache, ids).results| == |ids|
    ensures RemoveAll(channels, cache, ids).results[i]
      == RemovalResult(ids[i] in channels && ids[i] !in ids[..i], ids[i])
    decreases |ids|
  {
    var n := |ids| - 1;
    var last := RemovalResult(ids[n] in channels && ids[n] !in ids[..n], ids[n]);
    var before := RemoveAll(channels, cache, ids[..n]).results;
    RemoveAllLength(channels, cache, ids[..n]);
    RemoveLast(channels, cache, ids);
    SnocAt(before, last, i);
    if i < n {
      RemoveAllResultAt(channels, cache, ids[..n], i);
      assert ids[..n][i] == ids[i] && ids[..n][..i] == ids[..i];
    }
  }

  /**
   * One record per id, in input order: record `i` is a success exactly
   * when `ids[i]` was tracked and not already removed by an earlier id of
   * the same call.
   */
  lemma RemoveAllResults(channels: seq<string>, cache: Cache, ids: seq<string>)
    ensures var r := RemoveAll(channels, cache, ids);
      && |r.results| == |ids|
      && forall i :: 0 <= i < |ids| ==>
           r.results[i] == RemovalResult(ids[i] in channels && ids[i] !in ids[..i], ids[i])
  {
    RemoveAllLength(channels, cache, ids);
    forall i | 0 <= i < |ids|
      ensures RemoveAll(channels, cache, ids).results[i]
        == RemovalResult(ids[i] in channels && ids[i] !in ids[..i], ids[i])
    {
      RemoveAllResultAt(channels, cache, ids, i);
    }
  }

  /** The `info` event the mapper logs for `ids[i]`: `removed` when it was tracked and no earlier id removed it, else `not found`. */
  function RemovalEvent(channels: seq<string>, ids: seq<string>, i: nat): Event
    requires i < |ids|
  {
    Info(if ids[i] in channels && ids[i] !in ids[..i] then RemovedMessage(ids[i]) else NotFoundMessage(ids[i]))
  }

  /** The event of `ids[i]` depends only on the ids up to `i`. */
  lemma RemovalEventPrefix(channels: seq<string>, ids: seq<string>, n: nat, i: nat)
    requires i < n <= |ids|
    ensures RemovalEvent(channels, ids[..n], i) == RemovalEvent(channels, ids, i)
  {
    assert ids[..n][i] == ids[i] && ids[..n][..i] == ids[..i];
  }

  /** Removal logs one event per id. */
  lemma {:induction false} RemoveAllEventsLength(channels: seq<string>, cache: Cache, ids: seq<string>)
    ensures |RemoveAll(channels, cache, ids).events| == |ids|
    decreases |ids|
  {
    if |ids| > 0 {
      RemoveAllEventsLength(channels, cache, ids[..|ids| - 1]);
    }
  }

  /** The last id's event is `removed` exactly when it was tracked and no earlier id of the call removed it. */
  lemma RemoveLastEvent(channels: seq<string>, cache: Cache, ids: seq<string>)
    requires |ids| > 0
    ensures var n := |ids| - 1;
      RemoveAll(channels, cache, ids).events
        == RemoveAll(channels, cache, ids[..n]).events + [RemovalEvent(channels, ids, n)]
  {
    RemoveAllList(channels, cache, ids[..|ids| - 1]);
  }

  /** The log a removal of `ids` should leave: the event of each id, in input order. */
  function RemovalEvents(channels: seq<string>, ids: seq<string>): (events: seq<Event>)
    ensures |events| == |ids|
  {
    seq(|ids|, i requires 0 <= i < |ids| => RemovalEvent(channels, ids, i))
  }

  /** The expected log of `ids` is that of all ids but the last, followed by the last id's event. */
  lemma RemovalEventsSnoc(channels: seq<string>, ids: seq<string>)
    requires |ids| > 0
    ensures var n := |ids| - 1;
      RemovalEvents(channels, ids) == RemovalEvents(channels, ids[..n]) + [RemovalEvent(channels, ids, n)]
  {
    var n := |ids| - 1;
    forall i | 0 <= i < n
      ensures RemovalEvents(channels, ids[..n])[i] == RemovalEvents(channels, ids)[i]
    {
      RemovalEventPrefix(channels, ids, n, i);
    }
  }

  /** The log of a removal: one `info` per id, in input order, `removed` or `not found`. */
  lemma {:induction false} RemoveAllEvents(channels: seq<string>, cache: Cache, ids: seq<string>)
    ensures RemoveAll(channels, cache, ids).events == RemovalEvents(channels, ids)
    decreases |ids|
  {
    if |ids| > 0 {
      var n := |ids| - 1;
      RemoveLastEvent(channels, cache, ids);
      RemoveAllEvents(channels, cache, ids[..n]);
      RemovalEventsSnoc(channels, ids);
    }
  }

  /** Event `i` of a removal is the `info` for `ids[i]`: `removed` or `not found`. */
  lemma RemoveAllEventAt(channels: seq<string>, cache: Cache, ids: seq<string>, i: nat)
    requires i < |ids|
    ensures |RemoveAll(channels, cache, ids).events| == |ids|
    ensures RemoveAll(channels, cache, ids).events[i] == RemovalEvent(channels, ids, i)
  {
    RemoveAllEvents(channels, cache, ids);
  }

  /**
   * The only cache keys removal deletes are the removed channel ids
   * themselves (besides rewriting the reserved key); the video ids of the
   * removed channels stay.
   */
  lemma {:induction false} RemoveAllCache(channels: seq<string>, cache: Cache, ids: seq<string>)
    ensures var r := RemoveAll(channels, cache, ids);
      forall k :: k != ChannelsKey ==>
        (k in r.cache <==> k in cache && (k !in channels || k !in ids))
    decreases |ids|
  {
    if |ids| > 0 {
      var n := |ids| - 1;
      var id := ids[n];
      RemoveAllCache(channels, cache, ids[..n]);
      RemoveAllList(channels, cache, ids[..n]);
      var r := RemoveAll(channels, cache, ids);
      assert ids[..n] + [id] == ids;
      forall k | k != ChannelsKey
        ensures k in r.cache <==> k in cache && (k !in channels || k !in ids)
      {
        assert k in ids <==> k in ids[..n] || k == id;
      }
    }
  }

  /** Every entry removal keeps, other than the reserved key, is unchanged, and the cache stays well formed. */
  lemma {:induction false} RemoveAllEntries(channels: seq<string>, cache: Cache, ids: seq<string>)
    ensures var r := RemoveAll(channels, cache, ids);
      && (forall k :: k in r.cache && k != ChannelsKey ==> k in cache && r.cache[k] == cache[k])
      && (WellFormed(cache) ==> WellFormed(r.cache))
    decreases |ids|
  {
    if |ids| > 0 {
      RemoveAllEntries(channels, cache, ids[..|ids| - 1]);
    }
  }

  /** Removing ids none of which is tracked changes neither the list nor the cache. */
  lemma {:induction false} RemoveUntracked(channels: seq<string>, cache: Cache, ids: seq<string>)
    requires forall i :: 0 <= i < |ids| ==> ids[i] !in channels
    ensures var r := RemoveAll(channels, cache, ids);
      && r.channels == channels && r.cache == cache
      && |r.results| == |ids|
      && forall i :: 0 <= i < |ids| ==> r.results[i] == RemovalResult(false, ids[i])
    decreases |ids|
  {
    if |ids| > 0 {
      var n := |ids| - 1;
      RemoveUntracked(channels, cache, ids[..n]);
      forall i | 0 <= i < n ensures ids[..n][i] == ids[i] {
      }
    }
  }

  /**
   * Adding one new channel and then removing it restores the list. The
   * ledger entry of its video survives the removal, since removal deletes
   * the key equal to the channel id instead.
   */
  lemma AddThenRemove(before: seq<string>, cache: Cache, id: string, outcome: FetchOutcome)
    requires id !in before
    requires LatestVideo(id, outcome).Ok?
    ensures var results := AddResults(before, [id], [outcome]);
      var r := RemoveAll(before + Admitted(results), cache + SeenAll(MarkedIds(results)), [id]);
      && r.channels == before
      && r.results == [RemovalResult(true, id)]
      && ((LatestId(id, outcome).Some? && LatestId(id, outcome).value != id
           && LatestId(id, outcome).value != ChannelsKey) ==> LatestId(id, outcome).value in r.cache)
  {
    var results := AddResults(before, [id], [outcome]);
    AddOneUntracked(before, id, outcome);
    assert before + Admitted(results) == before + [id];
    assert [id][..0] == [];
    WithoutAppend(before, [id], id);
    WithoutAbsent(before, id);
    assert Without([id], id) == [];
    assert before + [] == before;
  }
}
