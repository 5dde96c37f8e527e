/**
 * The results-cache timestamps the dashboard collects from its tiles' queries,
 * and the oldest of them, shown to the user.
 */
module CacheTimes {
  import opened Wrappers
  import opened Dates

  /** The cache part of a query response. */
  datatype CacheMetadata = CacheMetadata(cacheHit: bool, cacheUpdatedTime: Option<Date>)

  /** The updater of `addResultsCacheTime`: only a cache hit with a time is recorded. */
  function RecordCacheTime(times: seq<Date>, cacheMetadata: CacheMetadata): (r: seq<Date>)
    ensures cacheMetadata.cacheHit && cacheMetadata.cacheUpdatedTime.Some? ==>
      r == times + [cacheMetadata.cacheUpdatedTime.value]
    ensures !(cacheMetadata.cacheHit && cacheMetadata.cacheUpdatedTime.Some?) ==> r == times
  {
    if cacheMetadata.cacheHit && cacheMetadata.cacheUpdatedTime.Some? then
      times + [cacheMetadata.cacheUpdatedTime.value]
    else
      times
  }

  /**
   * `min(resultsCacheTimes)`: scanning left to right, a later date replaces the
   * one kept only when it is strictly earlier; undefined for no dates.
   */
  function OldestCacheTime(times: seq<Date>): (oldest: Option<Date>)
    ensures oldest.None? <==> times == []
    ensures oldest.Some? ==> oldest.value in times
    ensures oldest.Some? ==> forall i :: 0 <= i < |times| ==> oldest.value.millis <= times[i].millis
  {
    if times == [] then None
    else
      var last := times[|times| - 1];
      match OldestCacheTime(times[..|times| - 1])
      case None => Some(last)
      case Some(kept) => if last.millis < kept.millis then Some(last) else Some(kept)
  }

  /** Recording a time leaves the oldest time as the earlier of the old oldest and the new time. */
  lemma OldestAfterRecord(times: seq<Date>, cacheMetadata: CacheMetadata)
    requires cacheMetadata.cacheHit && cacheMetadata.cacheUpdatedTime.Some?
    ensures var t := cacheMetadata.cacheUpdatedTime.value;
            OldestCacheTime(RecordCacheTime(times, cacheMetadata)) ==
              match OldestCacheTime(times)
              case None => Some(t)
              case Some(m) => if t.millis < m.millis then Some(t) else Some(m)
  {
  }
}
