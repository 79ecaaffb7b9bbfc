/**
 * The cache file `news_cache.json`: one snapshot `{timestamp, news}` that is
 * read back only while it is younger than 24 hours.
 */
module NewsCache {
  import opened Wrappers
  import opened Articles

  /**
   * A UTC instant in microseconds since the epoch. `isoformat` writes and
   * `fromisoformat` reads back microseconds, so a stored instant is exact.
   */
  type Instant = int

  /** `EXPIRY_TIME`, 24 hours, in microseconds. */
  const ExpiryTime: int := 24 * 60 * 60 * 1_000_000

  /** The content of the cache file. */
  datatype Snapshot = Snapshot(timestamp: Instant, news: seq<Article>)

  /**
   * The freshness test of `load_cache`: the stored news is used only when a
   * snapshot exists and its age at `now` is strictly below `ExpiryTime`.
   */
  function Load(file: Option<Snapshot>, now: Instant): (cached: Option<seq<Article>>)
    ensures cached.Some? <==> file.Some? && now - file.value.timestamp < ExpiryTime
    ensures cached.Some? ==> cached.value == file.value.news
  {
    match file
    case None => None
    case Some(snapshot) =>
      if snapshot.timestamp > now - ExpiryTime then Some(snapshot.news) else None
  }

  /** A snapshot written at `t` is read back unchanged before `t + ExpiryTime` and never from then on. */
  lemma SaveThenLoad(t: Instant, news: seq<Article>, now: Instant)
    ensures now < t + ExpiryTime ==> Load(Some(Snapshot(t, news)), now) == Some(news)
    ensures now >= t + ExpiryTime ==> Load(Some(Snapshot(t, news)), now) == None
  {
  }

  /** The comparison is strict: a snapshot exactly 24 hours old is stale, one a microsecond younger is fresh. */
  lemma ExpiryBoundary(t: Instant, news: seq<Article>)
    ensures Load(Some(Snapshot(t, news)), t + ExpiryTime) == None
    ensures Load(Some(Snapshot(t, news)), t + ExpiryTime - 1) == Some(news)
  {
  }

  /** A snapshot fresh at some instant was fresh, with the same news, at every earlier instant. */
  lemma FreshAtEarlierInstants(file: Option<Snapshot>, earlier: Instant, later: Instant)
    requires earlier <= later
    requires Load(file, later).Some?
    ensures Load(file, earlier) == Load(file, later)
  {
  }
}
