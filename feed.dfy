/**
 * The feed side of the notifier: what the feed parser delivers for a
 * channel, and how `#getLatestVideo` turns the newest entry into a
 * `VideoInfo` record. The network fetch itself is an input, a
 * `FetchOutcome`.
 */
module Feed {
  import opened Wrappers
  import opened Text

  /** One entry of a channel's video feed (only the fields the notifier reads). */
  datatype FeedItem = FeedItem(id: string, author: string, title: string, link: string, pubDate: string)

  /** A parsed channel feed: its title, its link and its entries, newest first. */
  datatype ChannelFeed = ChannelFeed(title: string, link: string, items: seq<FeedItem>)

  /** Why a promise of the notifier rejects. */
  datatype Failure =
    | FetchFailed(reason: string)   // the fetch or the parse of the feed failed
    | TypeError(message: string)    // a property of `undefined` was read while building the record

  /** What fetching and parsing one channel's feed gives. */
  type FetchOutcome = Result<ChannelFeed, Failure>

  /** The record emitted with a `new_video` event. */
  datatype VideoInfo = VideoInfo(
    id: string,
    channelID: string,
    channelName: string,
    title: string,
    link: string,
    shortLink: string,
    publishDate: string)

  const VideoIdPrefix: string := "yt:video:"
  const ShortLinkBase: string := "https://youtu.be/"
  const MillisSuffix: string := ".000Z"
  const UndefinedReplace: string := "Cannot read properties of undefined (reading 'replace')"

  /**
   * `${d.split('T')[0]} ${d.split('T')[1].replace('.000Z', '')}`; `None`
   * when there is no second piece, where `.replace` is read from
   * `undefined` and throws.
   */
  function PublishDate(pubDate: string): (date: Option<string>)
    ensures date.Some? ==> 'T' in pubDate
  {
    SplitHasSecond(pubDate, 'T');
    var parts := Split(pubDate, 'T');
    if |parts| < 2 then None
    else Some(parts[0] + " " + ReplaceFirst(parts[1], MillisSuffix, ""))
  }

  /** The date can be reformatted exactly when it contains a `T`. */
  lemma PublishDateDefined(pubDate: string)
    ensures PublishDate(pubDate).Some? <==> 'T' in pubDate
  {
    SplitHasSecond(pubDate, 'T');
  }

  /**
   * The date is the part before the first `T`, a space, and the piece
   * between the first and the second `T` (all the rest when there is one
   * `T`) with its first `.000Z` removed.
   */
  lemma PublishDatePieces(date: string, rest: string)
    requires 'T' !in date
    ensures PublishDate(date + "T" + rest)
      == Some(date + " " + ReplaceFirst(Split(rest, 'T')[0], MillisSuffix, ""))
  {
    assert date + "T" + rest == date + ['T'] + rest;
    SplitAt(date, rest, 'T');
  }

  /** A feed timestamp `YYYY-MM-DDTHH:MM:SS.000Z` becomes `YYYY-MM-DD HH:MM:SS`. */
  lemma PublishDateOfTimestamp(date: string, time: string)
    requires 'T' !in date && 'T' !in time && '.' !in time
    ensures PublishDate(date + "T" + time + MillisSuffix) == Some(date + " " + time)
  {
    var tail := time + MillisSuffix;
    assert date + "T" + time + MillisSuffix == date + ['T'] + tail;
    assert forall k :: 0 <= k < |tail| ==> tail[k] != 'T' by {
      forall k | 0 <= k < |tail|
        ensures tail[k] != 'T'
      {
        if k < |time| {
          assert tail[k] == time[k];
        } else {
          assert tail[k] == MillisSuffix[k - |time|];
        }
      }
    }
    SplitAt(date, tail, 'T');
    SplitWithout(tail, 'T');
    ReplaceFirstAtEnd(time, MillisSuffix);
  }

  /** The record built from the newest feed entry (youtube-notifier.js:106-112). */
  function VideoOf(channelID: string, item: FeedItem): (r: Result<VideoInfo, Failure>)
    ensures r.Ok? ==> r.value.channelID == channelID && r.value.shortLink == ShortLinkBase + r.value.id
    ensures r.Err? ==> r.error == TypeError(UndefinedReplace)
  {
    var id := ReplaceFirst(item.id, VideoIdPrefix, "");
    match PublishDate(item.pubDate)
    case None => Err(TypeError(UndefinedReplace))
    case Some(date) => Ok(VideoInfo(id, channelID, item.author, item.title, item.link, ShortLinkBase + id, date))
  }

  /**
   * What the promise of `#getLatestVideo(channelID)` settles to, given the
   * outcome of the fetch: the fetch's error, no video for a feed without
   * entries, or the record of the newest entry.
   */
  function LatestVideo(channelID: string, outcome: FetchOutcome): (r: Result<Option<VideoInfo>, Failure>)
    ensures outcome.Err? ==> r == Err(outcome.error)
    ensures outcome.Ok? && outcome.value.items == [] ==> r == Ok(None)
    ensures outcome.Ok? && outcome.value.items != [] ==>
      (r.Err? <==> 'T' !in outcome.value.items[0].pubDate)
    ensures outcome.Ok? && outcome.value.items != [] && 'T' in outcome.value.items[0].pubDate ==>
      r.Ok? && r.value.Some?
    ensures r.Ok? && r.value.Some? ==>
      var v := r.value.value;
      var item := outcome.value.items[0];
      && outcome.Ok? && outcome.value.items != []
      && v.id == ReplaceFirst(item.id, VideoIdPrefix, "")
      && v.channelID == channelID
      && v.channelName == item.author && v.title == item.title && v.link == item.link
      && v.shortLink == ShortLinkBase + v.id
      && PublishDate(item.pubDate) == Some(v.publishDate)
  {
    match outcome
    case Err(e) => Err(e)
    case Ok(feed) =>
      if |feed.items| == 0 then Ok(None)
      else
        PublishDateDefined(feed.items[0].pubDate);
        match VideoOf(channelID, feed.items[0])
        case Err(e) => Err(e)
        case Ok(v) => Ok(Some(v))
  }

  /** The id of the latest video, when the fetch succeeded and there is one. */
  function LatestId(channelID: string, outcome: FetchOutcome): Option<string>
  {
    match LatestVideo(channelID, outcome)
    case Ok(Some(v)) => Some(v.id)
    case _ => None
  }

  /**
   * For an entry with the feed's usual id `yt:video:<videoID>` and
   * timestamp, the record carries the bare video id, the short link
   * `https://youtu.be/<videoID>` and the reformatted date.
   */
  lemma LatestVideoOfUsualEntry(channelID: string, feed: ChannelFeed, videoID: string, date: string, time: string)
    requires feed.items != []
    requires feed.items[0].id == VideoIdPrefix + videoID
    requires feed.items[0].pubDate == date + "T" + time + MillisSuffix
    requires 'T' !in date && 'T' !in time && '.' !in time
    ensures var item := feed.items[0];
      LatestVideo(channelID, Ok(feed))
        == Ok(Some(VideoInfo(videoID, channelID, item.author, item.title, item.link,
                             "https://youtu.be/" + videoID, date + " " + time)))
  {
    ReplaceFirstAtStart(VideoIdPrefix, videoID, "");
    assert "" + videoID == videoID;
    PublishDateOfTimestamp(date, time);
    assert VideoOf(channelID, feed.items[0]).Ok?;
  }
}
