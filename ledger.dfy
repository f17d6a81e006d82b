/**
 * The in-memory key/value cache of the notifier. It is the ledger of
 * video ids already reported (one entry per id, keyed and valued by the
 * id) and also holds the channel list under the reserved key
 * `channels_ids`.
 */
module Ledger {

  /**
   * A cache value: a seen video id, or the notifier's own channel array,
   * which the cache holds by reference, so that pushes onto the array
   * show through it.
   */
  datatype Entry = Seen(videoID: string) | ChannelsArray

  const ChannelsKey: string := "channels_ids"

  type Cache = map<string, Entry>

  /** Every entry is a seen id stored under itself, or the channel array under the reserved key. */
  ghost predicate WellFormed(cache: Cache)
  {
    forall k :: k in cache ==> cache[k] == Seen(k) || (k == ChannelsKey && cache[k] == ChannelsArray)
  }

  /** The entries `set(id, id)` writes for every id of `ids`. */
  function SeenAll(ids: set<string>): (m: Cache)
    ensures m.Keys == ids
    ensures forall k :: k in m ==> m[k] == Seen(k)
  {
    map k | k in ids :: Seen(k)
  }

  /** Marking no id changes nothing. */
  lemma SeenAllEmpty(cache: Cache)
    ensures cache + SeenAll({}) == cache
  {
    assert SeenAll({}) == map[];
  }

  /** Marking one more id seen on top of a batch of marks is one bigger batch. */
  lemma SeenAllInsert(cache: Cache, ids: set<string>, id: string)
    ensures (cache + SeenAll(ids))[id := Seen(id)] == cache + SeenAll(ids + {id})
  {
  }

  /** Marking ids seen keeps the cache well formed. */
  lemma SeenAllWellFormed(cache: Cache, ids: set<string>)
    requires WellFormed(cache)
    ensures WellFormed(cache + SeenAll(ids))
  {
  }
}
