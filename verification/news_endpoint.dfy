/**
 * The `/news/{topic}` handler: answer from the cache file when it holds a
 * fresh, non-empty list, otherwise fetch, normalise, overwrite the cache and
 * answer with the new articles.
 */
module NewsEndpoint {
  import opened Wrappers
  import opened Articles
  import opened NewsCache

  /** `NEWS_API_URL`; the topic is appended to it as it is. */
  const NewsApiUrl: string := "https://newsdata.io/api/1/news?apikey=YOUR_FREE_API_KEY&q="

  /** What one request produces: the answer and the cache file afterwards. */
  datatype Outcome = Outcome(reply: Result<seq<Article>, Error>, file: Option<Snapshot>)

  /** Python truthiness of what `load_cache` returned: present and non-empty. */
  predicate Truthy(cached: Option<seq<Article>>) {
    cached.Some? && cached.value != []
  }

  /**
   * One request, as a function of the cache file before it, the two clock
   * readings (`load_cache` at `now`, `save_cache` at `savedAt`) and the news
   * provider as a function of the requested URL. Whatever it answers is what
   * the cache file then holds; a failed request leaves the file alone; the
   * file is only ever replaced wholesale by a snapshot stamped `savedAt`.
   */
  function Serve(file: Option<Snapshot>, topic: string, now: Instant, savedAt: Instant,
                 network: string -> Reply): (o: Outcome)
    ensures o.reply.Success? ==> o.file.Some? && o.file.value.news == o.reply.value
    ensures o.reply.Failure? ==> o.file == file
    ensures o.file == file || (o.reply.Success? && o.file == Some(Snapshot(savedAt, o.reply.value)))
  {
    var cached := Load(file, now);
    if Truthy(cached) then Outcome(Success(cached.value), file)
    else
      match ArticlesOf(network(NewsApiUrl + topic))
      case Failure(e) => Outcome(Failure(e), file)
      case Success(articles) => Outcome(Success(articles), Some(Snapshot(savedAt, articles)))
  }

  /**
   * A fresh non-empty cached list is answered unchanged and the cache is left
   * as it was, whatever the topic and whatever the provider would have sent.
   */
  lemma CacheHit(file: Option<Snapshot>, topic: string, now: Instant, savedAt: Instant,
                 network: string -> Reply)
    requires file.Some? && now - file.value.timestamp < ExpiryTime && file.value.news != []
    ensures Serve(file, topic, now, savedAt, network) == Outcome(Success(file.value.news), file)
  {
  }

  /** On a hit the answer depends neither on the topic nor on the provider: the cache is not keyed by topic. */
  lemma HitIgnoresTopicAndProvider(file: Option<Snapshot>, now: Instant,
                                   topic1: string, savedAt1: Instant, network1: string -> Reply,
                                   topic2: string, savedAt2: Instant, network2: string -> Reply)
    requires Truthy(Load(file, now))
    ensures Serve(file, topic1, now, savedAt1, network1) == Serve(file, topic2, now, savedAt2, network2)
  {
  }

  /**
   * Without a truthy cached list the provider is asked for the topic's URL;
   * its normalised articles are answered and saved with the save-time stamp,
   * and an error saves nothing.
   */
  lemma CacheMiss(file: Option<Snapshot>, topic: string, now: Instant, savedAt: Instant,
                  network: string -> Reply)
    requires !Truthy(Load(file, now))
    ensures Serve(file, topic, now, savedAt, network).reply == ArticlesOf(network(NewsApiUrl + topic))
    ensures ArticlesOf(network(NewsApiUrl + topic)).Success? ==>
      Serve(file, topic, now, savedAt, network).file ==
        Some(Snapshot(savedAt, ArticlesOf(network(NewsApiUrl + topic)).value))
    ensures ArticlesOf(network(NewsApiUrl + topic)).Failure? ==>
      Serve(file, topic, now, savedAt, network).file == file
  {
  }

  /** A fresh snapshot holding an empty list is falsy, so it is refetched and overwritten. */
  lemma FreshEmptyCacheIsRefetched(t: Instant, topic: string, now: Instant, savedAt: Instant,
                                   network: string -> Reply)
    requires now - t < ExpiryTime
    requires ArticlesOf(network(NewsApiUrl + topic)).Success?
    ensures Serve(Some(Snapshot(t, [])), topic, now, savedAt, network) ==
      Outcome(ArticlesOf(network(NewsApiUrl + topic)),
              Some(Snapshot(savedAt, ArticlesOf(network(NewsApiUrl + topic)).value)))
  {
  }

  /** A provider reply with no articles yields an empty answer, and an empty list is cached. */
  lemma EmptyProviderReplyIsCached(file: Option<Snapshot>, topic: string, now: Instant, savedAt: Instant,
                                   network: string -> Reply)
    requires !Truthy(Load(file, now))
    requires network(NewsApiUrl + topic) == Json(Missing) || network(NewsApiUrl + topic) == Json(List([]))
    ensures Serve(file, topic, now, savedAt, network) == Outcome(Success([]), Some(Snapshot(savedAt, [])))
  {
  }

  /**
   * A request answered with a non-empty list is answered again, identically
   * and without touching the cache, by any later request for any topic while
   * the stored snapshot is still fresh.
   */
  lemma RepeatWithinWindow(file: Option<Snapshot>, topic1: string, now1: Instant, savedAt1: Instant,
                           network1: string -> Reply,
                           topic2: string, now2: Instant, savedAt2: Instant, network2: string -> Reply)
    requires Serve(file, topic1, now1, savedAt1, network1).reply.Success?
    requires Serve(file, topic1, now1, savedAt1, network1).reply.value != []
    requires now2 - Serve(file, topic1, now1, savedAt1, network1).file.value.timestamp < ExpiryTime
    ensures Serve(Serve(file, topic1, now1, savedAt1, network1).file, topic2, now2, savedAt2, network2) ==
      Serve(file, topic1, now1, savedAt1, network1)
  {
  }

  /** After a miss that saved a non-empty list, any request before `savedAt + ExpiryTime` is a hit on it. */
  lemma RepeatAfterMiss(file: Option<Snapshot>, topic1: string, now1: Instant, savedAt1: Instant,
                        network1: string -> Reply,
                        topic2: string, now2: Instant, savedAt2: Instant, network2: string -> Reply)
    requires !Truthy(Load(file, now1))
    requires ArticlesOf(network1(NewsApiUrl + topic1)).Success?
    requires ArticlesOf(network1(NewsApiUrl + topic1)).value != []
    requires now2 - ExpiryTime < savedAt1
    ensures Serve(Serve(file, topic1, now1, savedAt1, network1).file, topic2, now2, savedAt2, network2) ==
      Outcome(ArticlesOf(network1(NewsApiUrl + topic1)), Serve(file, topic1, now1, savedAt1, network1).file)
  {
  }

  /** Once `ExpiryTime` has passed since the save, the next request fetches again. */
  lemma StaleAfterWindow(file: Option<Snapshot>, topic1: string, now1: Instant, savedAt1: Instant,
                         network1: string -> Reply,
                         topic2: string, now2: Instant, savedAt2: Instant, network2: string -> Reply)
    requires !Truthy(Load(file, now1))
    requires ArticlesOf(network1(NewsApiUrl + topic1)).Success?
    requires now2 >= savedAt1 + ExpiryTime
    ensures Serve(Serve(file, topic1, now1, savedAt1, network1).file, topic2, now2, savedAt2, network2).reply ==
      ArticlesOf(network2(NewsApiUrl + topic2))
  {
  }

  /** The process that serves requests; its one piece of state is the cache file. */
  class NewsServer {
    /** `news_cache.json`: `None` while the file does not exist. */
    var cacheFile: Option<Snapshot>

    constructor (file: Option<Snapshot>)
      ensures cacheFile == file
    {
      cacheFile := file;
    }

    /** `load_cache` at clock reading `now`. */
    method LoadCache(now: Instant) returns (cached: Option<seq<Article>>)
      ensures cached == Load(cacheFile, now)
    {
      match cacheFile
      case None =>
        cached := None;
      case Some(snapshot) =>
        if snapshot.timestamp > now - ExpiryTime {
          cached := Some(snapshot.news);
        } else {
          cached := None;
        }
    }

    /** `save_cache` at clock reading `now`: the file is replaced wholesale. */
    method SaveCache(news: seq<Article>, now: Instant)
      modifies this
      ensures cacheFile == Some(Snapshot(now, news))
    {
      cacheFile := Some(Snapshot(now, news));
    }

    /** `get_news(topic)`. */
    method GetNews(topic: string, now: Instant, savedAt: Instant, network: string -> Reply)
      returns (reply: Result<seq<Article>, Error>)
      modifies this
      ensures Outcome(reply, cacheFile) == Serve(old(cacheFile), topic, now, savedAt, network)
      ensures reply.Success? ==> cacheFile.Some? && cacheFile.value.news == reply.value
      ensures reply.Failure? ==> cacheFile == old(cacheFile)
    {
      var cached := LoadCache(now);
      if cached.Some? && cached.value != [] {
        return Success(cached.value);
      }
      var articles := ArticlesOf(network(NewsApiUrl + topic));
      match articles
      case Failure(e) =>
        reply := Failure(e);
      case Success(news) =>
        SaveCache(news, savedAt);
        reply := Success(news);
    }
  }
}
