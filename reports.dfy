/**
 * What the notifier tells the outside world: the events it emits and the
 * per-channel result records its batch operations resolve to.
 */
module Reports {
  import opened Wrappers
  import opened Feed

  /** An emitted event: `new_video` with its record, `info` with a message, `error`. */
  datatype Event =
    | NewVideo(video: VideoInfo)
    | Info(message: string)
    | Error(message: string, cause: Failure)   // a message ending with the serialised cause
    | ErrorObject(cause: Failure)              // the error object itself

  const StartedMessage: string := "Started checking for new videos."
  const StoppedMessage: string := "Stopped checking for new videos."
  const AlreadyAddedText: string := "Channel already added"

  function AlreadyAddedMessage(channelID: string): string
  {
    "Method: addChannels\nMessage: Channel ID " + channelID + " already added."
  }

  function FailedToAddMessage(channelID: string): string
  {
    "Method: addChannels\nMessage: Failed to add channel ID " + channelID + "."
  }

  function RemovedMessage(channelID: string): string
  {
    "Method: removeChannels\nMessage: Channel ID " + channelID + " removed."
  }

  function NotFoundMessage(channelID: string): string
  {
    "Method: removeChannels\nMessage: Channel ID " + channelID + " not found."
  }

  /** How often `events` reports a new video with id `id`. */
  function Emissions(events: seq<Event>, id: string): nat
  {
    if |events| == 0 then 0
    else
      var last := events[|events| - 1];
      Emissions(events[..|events| - 1], id) + if last.NewVideo? && last.video.id == id then 1 else 0
  }

  /** Counting reports distributes over concatenation of event logs. */
  lemma {:induction false} EmissionsAppend(a: seq<Event>, b: seq<Event>, id: string)
    ensures Emissions(a + b, id) == Emissions(a, id) + Emissions(b, id)
    decreases |b|
  {
    if |b| == 0 {
      assert a + b == a;
    } else {
      var n := |b| - 1;
      assert (a + b)[..|a + b| - 1] == a + b[..n];
      EmissionsAppend(a, b[..n], id);
    }
  }

  /** The ids of the videos `events` reports as new. */
  function NewVideoIds(events: seq<Event>): set<string>
  {
    if |events| == 0 then {}
    else
      var last := events[|events| - 1];
      NewVideoIds(events[..|events| - 1]) + if last.NewVideo? then {last.video.id} else {}
  }

  /** An id is among the reported ones exactly when some event reports it. */
  lemma {:induction false} NewVideoIdsReported(events: seq<Event>, id: string)
    ensures id in NewVideoIds(events) <==> Emissions(events, id) > 0
    decreases |events|
  {
    if |events| > 0 {
      NewVideoIdsReported(events[..|events| - 1], id);
    }
  }

  /** The record of one channel addition (`ChannelAdditionInfo`). */
  datatype AdditionResult =
    | Success(channelID: string, videoInfo: Option<VideoInfo>)
    | AlreadyAdded(channelID: string, message: string)
    | AddError(channelID: string, error: Failure)

  /** The record of one channel removal (`ChannelRemovalInfo`). */
  datatype RemovalResult = RemovalResult(success: bool, channelID: string)

  /** The record of `getChannelInfo` (`ChannelInfo`): the channel's data, or the error met. */
  datatype ChannelInfo =
    | ChannelInfo(channelID: string, title: string, link: string, lastVideo: Option<VideoInfo>)
    | ChannelFailure(channelID: string, error: Failure)

  /**
   * `getChannelInfo(channelID)`: the feed is fetched for the channel's
   * title and link (`feed`), then `#getLatestVideo` fetches it once more
   * (`latest`); either rejection becomes a record carrying the error.
   */
  function ChannelInfoOf(channelID: string, feed: FetchOutcome, latest: FetchOutcome): (info: ChannelInfo)
    ensures info.channelID == channelID
    ensures info.ChannelFailure? <==> feed.Err? || LatestVideo(channelID, latest).Err?
    ensures feed.Err? ==> info.error == feed.error
    ensures feed.Ok? && LatestVideo(channelID, latest).Err? ==> info.error == LatestVideo(channelID, latest).error
    ensures info.ChannelInfo? ==>
      && info.title == feed.value.title && info.link == feed.value.link
      && Ok(info.lastVideo) == LatestVideo(channelID, latest)
  {
    match feed
    case Err(e) => ChannelFailure(channelID, e)
    case Ok(f) =>
      match LatestVideo(channelID, latest)
      case Ok(video) => ChannelInfo(channelID, f.title, f.link, video)
      case Err(e) => ChannelFailure(channelID, e)
  }
}
