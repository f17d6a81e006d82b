# youtube-notifier: channel tracking and de-duplication, in Dafny

This project models the core of the `YouTubeNotifier` class of
`youtube-notifier.js` and proves properties of it. That core is a small
state machine with these parts:

- the channel registry `#channels`: an ordered list of YouTube channel ids;
- the cache `#cacheStorage`: a key/value store that is both the ledger of
  video ids already reported and the holder of the channel list under the
  reserved key `channels_ids`;
- the interval handle `#intervalID`;
- the events the object emits (`new_video`, `info`, `error`).

The operations are the constructor (interval clamp, rehydration of the
list, clearing of the cache, re-seeding of the ledger), `start`, `stop`,
one firing of the interval callback (a *tick*), `addChannels`,
`removeChannels`, `#getLatestVideo`, `getChannelInfo` and
`getSubscribedChannels`.

A fetch of a channel's feed is never performed. Every operation that
fetches takes the outcome as an argument: `FetchOutcome`, either a parsed
`ChannelFeed` or a `Failure`. Emitted events are appended to the log
field `log`. Timers are handles that are either active or cleared, and
one firing of the active interval is the method `Tick`.

Modules, one per concern:

- `Wrappers`: `Option` and `Result`.
- `Text`: the string operations `#getLatestVideo` uses. `ReplaceFirst`
  is JavaScript's `String.prototype.replace` with a string pattern and a
  replacement that contains no `$` (both calls pass `''`). It replaces
  the first occurrence only. `Split` is `split` on one
  character, and `Join` is its inverse.
- `Feed`: feed items, `VideoInfo`, and `LatestVideo`, the value the
  promise of `#getLatestVideo` settles to.
- `Ledger`: the cache as `map<string, Entry>` and its well-formedness.
- `Reports`: the events, the result records of the batch operations, and
  the `getChannelInfo` record.
- `Registry`: `filter` on the channel list, with reference lemmas.
- `Poll`: the tick and the constructor's re-seeding, as folds over the registry.
- `Batch`: `addChannels` and `removeChannels` as functions on values.
- `Notifier`: the class `YouTubeNotifier`. Its fields are updated in place
  by methods proved against the functions of `Poll` and `Batch`.

How the model reads the JavaScript:

- **`addChannels` runs in two phases.** Each async mapper runs up to its
  first `await` before the next mapper starts. So every `includes` test
  of one call sees the list as it was before the call.
  - The `info` events for ids already tracked are emitted first.
  - Then line 184 writes the list back under `channels_ids`.
  - Then the fetches settle. The model takes them in input order.
  - As a result, an id given twice in one call can be pushed twice
    (`Batch.AddSameIdTwice`).
- **`removeChannels` is sequential.** Its mappers contain no `await`, so
  they run one after another and each one sees the list the previous one
  left.
- **The cache holds the channel array by reference.** The entry at
  `channels_ids` is the `Entry` value `ChannelsArray`. It stands for the
  live array, so later pushes show through it. Video ids are stored as
  `Seen(id)` under the id itself.
- **A tick is a fold in registry order.** Each settlement consults the
  ledger as it stands when that settlement happens.
- **A failed latest-video record.** When the newest entry's `pubDate`
  has no `T`, `split('T')[1]` is `undefined` and reading `.replace` from
  it throws. That makes the promise reject, which the model writes as
  `Err(TypeError(..))`.
- **An empty feed settles to no video.** `resolve(undefined)` runs
  first, so the `TypeError` thrown right after it is ignored.

Facts about the code that the model keeps:

- The channel list can hold duplicates: the code pushes two equal
  untracked ids given in one call.
- Removal deletes the cache key equal to the channel id, not the key of
  that channel's video id. The ledger entry of the removed channel's
  video therefore survives.
- `stop()` on a stopped notifier still emits
  "Stopped checking for new videos.".
- A failed fetch during the constructor's re-seeding is not caught.
- `addChannels` has no `notify` switch. It always emits.
- `addChannels` reports the latest video of a newly added channel even
  when the ledger already holds its id: lines 167-169 set the id and emit
  `new_video` without calling `has`.

## Model

| member | source | states |
|---|---|---|
| Notifier.CheckInterval | youtube-notifier.js:73-75 | The interval is 60 for a missing or zero argument, 50 for a nonzero argument below 50, and the argument itself from 50 up; it is never below 50. |
| Notifier.YouTubeNotifier.constructor | youtube-notifier.js:69-89 | After construction the interval is clamped and the list is the stored one (or empty). The cache is the cleared cache holding only the list entry, then re-seeded with every rehydrated channel's latest video id. Exactly one interval is active, and the log holds the stop and start messages of `start()`. |
| Notifier.YouTubeNotifier.Start | youtube-notifier.js:130-144 | `start` stops first and then sets a fresh interval handle. Afterwards exactly that one handle is active, and the log gains the stop message followed by the start message. |
| Notifier.YouTubeNotifier.Stop | youtube-notifier.js:149-152 | `stop` clears the last interval set, leaving no active interval, and always logs the stop message, also when already stopped. |
| Notifier.YouTubeNotifier.Tick | youtube-notifier.js:133-141 | One firing leaves the cache and the log exactly as the registry-order fold `Poll.CheckAll` gives them, and keeps the cache well formed. |
| Notifier.YouTubeNotifier.AddChannels | youtube-notifier.js:160-186 | The results are the per-id records decided against the pre-call list. The list gains exactly the successes, in input order. The cache gains the list entry and every video id of a success. The log gains the `already added` infos and then the settlement events. |
| Notifier.YouTubeNotifier.AnnounceTracked | youtube-notifier.js:161-162 | The synchronous first phase logs one `already added` info per id that the pre-call list holds, in input order. |
| Notifier.YouTubeNotifier.SettleAdditions | youtube-notifier.js:163-177 | The second phase appends the successful ids in input order and marks their videos seen. The log gains `new_video` for each video found and `error` for each failed fetch. |
| Notifier.YouTubeNotifier.SettleOne | youtube-notifier.js:164-177 | One settled fetch of an untracked id behaves as follows. On success the id is pushed and, when a video exists, its id is set in the cache and a `new_video` event is logged. On failure an `error` event carrying the failure is logged and the list is unchanged. |
| Notifier.YouTubeNotifier.RemoveChannels | youtube-notifier.js:194-210 | The list, the cache, the log and the results are those of the sequential fold `Batch.RemoveAll`, and the cache stays well formed. |
| Notifier.YouTubeNotifier.GetChannelInfo | youtube-notifier.js:218-236 | The record is `Reports.ChannelInfoOf`, and a failure record is also emitted as an `error` event carrying the error itself. |
| Notifier.YouTubeNotifier.GetSubscribedChannels | youtube-notifier.js:243-249 | There is one record per tracked channel in registry order, each that channel's `getChannelInfo` record. With an `error` listener attached, a failing channel yields a failure record and does not stop the others. |
| Reports.ChannelInfoOf | youtube-notifier.js:218-236 | The record names the channel. It is a failure exactly when the feed fetch or the latest-video promise rejects, and it then carries that error. Otherwise it carries the feed's title and link and the latest video. |
| Feed.LatestVideo | youtube-notifier.js:96-125 | A fetch error is passed through. An empty feed gives no video. A non-empty feed fails exactly when the newest `pubDate` has no `T`. Otherwise the record has the feed id with the first `yt:video:` removed, the channel id, the author, the title, the link, `https://youtu.be/` + id, and the reformatted date: the part before the first `T`, a space, and the piece between the first and the second `T` (all the rest when there is one `T`) with the first `.000Z` removed. |
| Feed.VideoOf | youtube-notifier.js:106-112 | A built record carries the given channel id and the short link `https://youtu.be/` followed by its id. Building fails only with the `TypeError` of reading `replace` from `undefined`. |
| Feed.PublishDate | youtube-notifier.js:112 | A date is produced only when `pubDate` contains a `T`. Its value is stated by `Feed.PublishDatePieces`, and for the usual timestamp by `Feed.PublishDateOfTimestamp`. |
| Feed.PublishDatePieces | youtube-notifier.js:112 | The date is the part before the first `T`, a space, and the piece between the first and the second `T` (all the rest when there is one `T`) with the first `.000Z` removed. |
| Feed.PublishDateDefined | youtube-notifier.js:112 | The date can be reformatted exactly when `pubDate` contains a `T`. |
| Feed.PublishDateOfTimestamp | youtube-notifier.js:112 | `YYYY-MM-DDTHH:MM:SS.000Z` becomes `YYYY-MM-DD HH:MM:SS`. |
| Feed.LatestVideoOfUsualEntry | youtube-notifier.js:100-114 | For a newest entry `yt:video:<v>` with a usual timestamp, the record is exactly: id `<v>`, short link `https://youtu.be/<v>`, date `date time`, other fields copied. |
| Text.IndexOfFrom | youtube-notifier.js:106 | The result is the first position at or after `from` where the pattern occurs, or none when it does not occur there. |
| Text.ReplaceFirst | youtube-notifier.js:106 | When the pattern occurs, the length changes by the difference of the pattern's and the replacement's lengths. When it does not occur, the string is unchanged. Which occurrence is replaced is stated by `Text.ReplaceFirstFirst`. |
| Text.ReplaceFirstFirst | youtube-notifier.js:106 | When the first occurrence of the pattern starts at `i`, the result is the text before `i`, the replacement, and the text after that occurrence. |
| Text.ReplaceFirstAtStart | youtube-notifier.js:106 | Replacing a pattern that the string starts with replaces that prefix. |
| Text.ReplaceFirstAbsent | youtube-notifier.js:106 | Replacing a pattern that does not occur leaves the string unchanged. |
| Text.ReplaceFirstAtEnd | youtube-notifier.js:112 | Removing `.000Z` from a time that ends with it, with no `.` before it, leaves the time. |
| Text.Split | youtube-notifier.js:112 | `split` on one character gives at least one piece, and no piece contains the separator. |
| Text.JoinSplit | youtube-notifier.js:112 | Joining the pieces of a split with the separator gives back the string. |
| Text.SplitJoin | youtube-notifier.js:112 | Splitting a join of separator-free pieces gives back the pieces. |
| Text.SplitAt | youtube-notifier.js:112 | The split of `d + sep + t`, where `d` has no separator, is `d` followed by the split of `t`. |
| Text.SplitWithout | youtube-notifier.js:112 | A string without the separator splits into itself alone. |
| Text.SplitHasSecond | youtube-notifier.js:112 | `split(sep)[1]` exists exactly when the separator occurs. |
| Reports.EmissionsAppend | youtube-notifier.js:138 | Counting the reports of one id distributes over concatenating logs. |
| Reports.NewVideoIdsReported | youtube-notifier.js:138 | An id is among the reported ones exactly when it is reported a positive number of times. |
| Poll.CheckChannel | youtube-notifier.js:135-139 | The `.then` callback of one channel's check. A video whose id the ledger lacks is set under its id and emitted as `new_video`; a failed fetch, no video or a known id changes nothing. Its contract is stated by `Poll.CheckChannelShape` and `Poll.CheckChannelEmits`. |
| Poll.CheckAll | youtube-notifier.js:134-140 | One tick folds the channel checks over the registry in order, each on the ledger the earlier ones left, concatenating their events. Its contract is stated by the `Poll.CheckAll*` lemmas. |
| Poll.CheckChannelShape | youtube-notifier.js:135-139 | A failed fetch, an empty feed, or a video already in the ledger changes nothing and emits nothing. Otherwise exactly one `new_video` is emitted, for an id the ledger lacked, and the cache becomes the old one with that id set. |
| Poll.CheckChannelEmits | youtube-notifier.js:135-139 | One channel's check reports `id` once when its latest video has that id and the ledger lacks it, and never otherwise. |
| Poll.CheckAllStep | youtube-notifier.js:134-140 | A tick over the first `i + 1` channels is the tick over the first `i` followed by the check of channel `i`. |
| Poll.CheckAllCache | youtube-notifier.js:134-140 | A tick only adds ledger entries, exactly the ids it reports. |
| Poll.CheckAllLedger | youtube-notifier.js:134-140 | Every event of a tick is a `new_video` for an id that the ledger lacked before the tick and holds after it. |
| Poll.CheckAllCovers | youtube-notifier.js:134-140 | After a tick the ledger keeps its old keys and holds the latest video id of every channel whose fetch gave one. |
| Poll.CheckAllQuiet | youtube-notifier.js:134-140 | A tick in which every latest video id is already in the ledger returns the ledger unchanged with no events. |
| Poll.TickTwiceIsQuiet | youtube-notifier.js:134-140 | A second tick that sees the same feeds as the first emits nothing and changes nothing. |
| Poll.LatestIsSnoc | youtube-notifier.js:134 | Whether some channel gives `id` is decided by the channels before the last one, or by the last one. |
| Poll.CheckAllEmitsOnce | youtube-notifier.js:134-140 | A tick reports an id exactly once when some channel's latest video has it and the ledger lacked it, and zero times otherwise. |
| Poll.SeedChannel | youtube-notifier.js:82-85 | Re-seeding one channel: a key is in the result exactly when it was in the cache or is the channel's latest video id. |
| Poll.Seed | youtube-notifier.js:81-85 | Re-seeding folds `SeedChannel` over the rehydrated list in order and keeps every old key. |
| Poll.SeedKeys | youtube-notifier.js:81-85 | After re-seeding, the ledger's keys are exactly the old keys plus every rehydrated channel's latest video id, and the ledger stays well formed. |
| Poll.RestartThenTickIsQuiet | youtube-notifier.js:76-88 | After a restart, a tick that sees the feeds the re-seeding saw emits nothing and changes nothing, so a video reported before the restart and still the latest is not reported again. Line 80 clears the ledger, so only the current latest ids are re-seeded. |
| Registry.DistinctSnoc | youtube-notifier.js:165 | Pushing an id not in a repeat-free list keeps it repeat-free. |
| Registry.Without | youtube-notifier.js:197 | `filter(id => id !== channelID)` leaves no occurrence of the id, keeps every other id present, and never grows the list. |
| Registry.Keep | youtube-notifier.js:194-207 | The ids of the list that are not among the given ids are exactly those kept. |
| Registry.WithoutAbsent | youtube-notifier.js:197 | Filtering out an absent id returns the list unchanged. |
| Registry.WithoutAppend | youtube-notifier.js:197 | Filtering distributes over concatenation, so the other ids keep their relative order. |
| Registry.WithoutCount | youtube-notifier.js:197 | Every other id keeps its number of occurrences, and the filtered id has none. |
| Registry.WithoutDistinct | youtube-notifier.js:197 | Filtering a repeat-free list gives a repeat-free list. |
| Registry.KeepWithout | youtube-notifier.js:197 | Filtering one more id out of what is kept is keeping against one more id. |
| Registry.KeepNothing | youtube-notifier.js:194-207 | Keeping against no ids keeps the whole list. |
| Batch.AddResult | youtube-notifier.js:161-182 | The record of one id names that id, and it is `already_added` exactly when the pre-call list holds the id. |
| Batch.AddResults | youtube-notifier.js:161-182 | The mapped records: one per input id, each decided by `AddResult` against the pre-call list. |
| Batch.AddResultsShape | youtube-notifier.js:161-182 | There is one record per input id, naming it. The record is `already_added` exactly when the pre-call list holds the id. It is a success exactly when the id is untracked and the fetch succeeds, carrying the video found. Otherwise it is an error carrying the failure. |
| Batch.SettleSnoc | youtube-notifier.js:165-179 | One more record extends the pushed ids, the marked ids, the infos and the settlement events by exactly that record's share. |
| Batch.AnnounceStep | youtube-notifier.js:178-179 | Record `i` adds one `already added` info exactly when id `i` was tracked. |
| Batch.PrefixStep | youtube-notifier.js:161 | The first `i + 1` records are the first `i` followed by the record of id `i`. |
| Batch.SettleStep | youtube-notifier.js:164-177 | Settling one more record of an id extends the list by that id exactly on a success, sets its video id exactly when it is a success that found a video, and extends the log by exactly that record's event. |
| Batch.MarkStep | youtube-notifier.js:168 | Settling one more record sets its video id exactly when it is a success that found a video. |
| Batch.NothingToAdd | youtube-notifier.js:178-181 | Records that are all `already_added` push nothing, mark nothing, emit no settlement event, and emit one info per record naming its id. |
| Batch.AddTrackedOnly | youtube-notifier.js:162-181 | For a call whose ids are all tracked: every record is `already_added` with message "Channel already added". The list's contents are unchanged, nothing is marked, and only the `already added` infos are emitted. |
| Batch.AddOneUntracked | youtube-notifier.js:164-177 | For one untracked id: a successful fetch gives a success record, appends the id at the end, and marks and emits the video if there is one. A failed fetch gives an error record, leaves the list, marks nothing, and emits the `error` event. |
| Batch.AdmittedIds | youtube-notifier.js:165 | Every pushed id is the id of a success record, and the pushed ids repeat none when the records' ids repeat none. |
| Batch.AddKeepsDistinct | youtube-notifier.js:162-165 | A call of distinct ids on a repeat-free list leaves it repeat-free. |
| Batch.AddSameIdTwice | youtube-notifier.js:162-165 | The same untracked id given twice in one call, both fetches succeeding, is pushed twice, and the list then repeats it. |
| Batch.RemoveOne | youtube-notifier.js:196-206 | One mapper of `removeChannels`. A tracked id is filtered out of the list, the list is written back under the reserved key, the key equal to the id is deleted, a `removed` info is logged and `success: true` is recorded. An untracked id logs `not found`, records `success: false` and changes nothing else. Its contract is stated by `Batch.RemoveLast` and `Batch.RemoveLastEvent` for the last id of a call, and by `Batch.RemoveAllList`, `Batch.RemoveAllCache` and `Batch.RemoveAllEntries` for the list and the cache. |
| Batch.RemoveAll | youtube-notifier.js:195-209 | The mappers run one after another, each on the list and cache the previous one left. Its contract is stated by `Batch.RemoveAllList` (the list), `Batch.RemoveAllResults` (the records), `Batch.RemoveAllEvents` (the log), and `Batch.RemoveAllCache` and `Batch.RemoveAllEntries` (the cache). |
| Batch.RemoveAllList | youtube-notifier.js:196-197 | Removal leaves exactly the ids not among the removed ones, each occurrence dropped, the rest in their order. |
| Batch.RemoveLast | youtube-notifier.js:196-205 | The last id's record is a success exactly when it was tracked and no earlier id of the call removed it. |
| Batch.RemoveAllLength | youtube-notifier.js:195-209 | Removal resolves to one record per id. |
| Batch.RemoveAllResultAt | youtube-notifier.js:195-209 | Record `i` names id `i`, and it is a success exactly when id `i` was tracked before the call and is not an earlier id of the call. |
| Batch.RemoveAllResults | youtube-notifier.js:195-209 | The same as `RemoveAllResultAt`, for all records at once, with one record per id. |
| Batch.RemoveAllEventsLength | youtube-notifier.js:195-209 | Removal logs one event per id. |
| Batch.RemoveLastEvent | youtube-notifier.js:200-204 | The last id's event is the `info` "Channel ID … removed." exactly when it was tracked and no earlier id of the call removed it, and "Channel ID … not found." otherwise. |
| Batch.RemoveAllEvents | youtube-notifier.js:195-209 | The log of a removal is one `info` per id, in input order: for id `i`, "removed" when it was tracked before the call and is not an earlier id of the call, and "not found" otherwise. |
| Batch.RemoveAllEventAt | youtube-notifier.js:200-204 | Event `i` of a removal is that `info` for id `i`. |
| Batch.RemoveAllCache | youtube-notifier.js:198-199 | Apart from the reserved key, a key is deleted exactly when it is the id of a tracked channel that the call removes. |
| Batch.RemoveAllEntries | youtube-notifier.js:198-199 | Every kept entry other than the reserved key is unchanged, and the cache stays well formed. |
| Batch.RemoveUntracked | youtube-notifier.js:203-205 | Removing only untracked ids changes neither the list nor the cache and answers `success: false` for each, in order. |
| Batch.AddThenRemove | youtube-notifier.js:160-206 | Adding one new channel with a successful fetch and then removing it restores the list and answers `[success: true]`. The video id it marked stays in the ledger unless that id equals the channel id or the reserved key. |

## Left out

- Network access and feed parsing (`rss-parser`). A fetch is an argument
  `FetchOutcome`, holding the parsed feed's title, link and items, each
  item with id, author, title, link and `pubDate`.
- Item fields other than `pubDate` that are missing (`undefined`): the
  model's items always carry strings. A missing `id` or `pubDate` would
  throw in the code; only the `pubDate` without `T` path is modelled.
- The durability of `file-cache` and its disk format. The cache is an
  in-memory map, and `take` at start-up is the argument `stored`.
- Real timers and their periods. `setInterval` yields a fresh handle,
  `clearInterval` deactivates one, and one firing is the method `Tick`.
  The period `1000 * checkInterval` is not modelled beyond
  `checkInterval`.
- Interleaving of promises. Settlements are taken in input order
  (`addChannels`) and in registry order (tick and re-seeding), and each
  operation runs to completion before the next starts. Another operation
  between a call to `addChannels` and its settlements is not modelled.
- Rejections that the constructor's re-seeding (lines 81-85) and the
  tick (lines 134-140) leave unhandled. The model leaves the state
  unchanged for them and records no event. Under Node's default setting
  an unhandled rejection ends the process, so the model describes a
  process that keeps running.
- The `EventEmitter` transport. Events are appended to `log`. The model
  assumes an `error` listener is attached. Without one, `emit('error')`
  throws. In `addChannels` (line 175) the mapper's promise then rejects,
  and so does `Promise.all`. In `getChannelInfo` (line 230) the call
  rejects, so `getSubscribedChannels` fails as a whole instead of
  yielding a failure record for that channel.
- `Reports.Event`: the `error` message of `addChannels` ends with
  `JSON.stringify(error, null, 2)`. The model carries the failure value
  next to the message prefix instead of serialising it.
- Text.ReplaceFirst: the `$` patterns of a replacement string (`$&`,
  `$$`, `` $` ``, `$'`) are not expanded. The code never passes a `$`:
  both of its calls replace with `''`.
- Notifier.CheckInterval: the argument is `Option<int>`. Non-integer,
  `NaN`, negative-zero and string intervals are not modelled.
- Notifier.YouTubeNotifier.GetSubscribedChannels: the records are given
  in registry order. The concurrent fetches that produce them are not
  modelled.
- The `notify` parameter declared in `youtube-notifier.d.ts:37`: it does
  not exist in the JavaScript.
- `test/index.js` is a live-network demonstration with no assertions and
  is not part of this model.
