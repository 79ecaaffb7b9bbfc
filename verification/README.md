# News endpoint of the hodhod backend, modelled in Dafny

The backend serves `GET /news/{topic}`. It keeps one cache file,
`news_cache.json`, holding `{timestamp, news}`. A request first reads the
file back. The stored list is answered as it is when the snapshot is younger
than 24 hours and the list is non-empty. Otherwise the handler asks the
newsdata.io API for the topic and maps each entry of the reply's `results`
to `{title, summary, image, source}`. It then overwrites the cache file with
the new list, stamped with the current time, and answers with that list.

The model has four modules:

- `Wrappers` (`wrappers.dfy`): `Option` and `Result`.
- `Articles` (`articles.dfy`): provider entries, the article record, and the normalisation of a reply.
- `NewsCache` (`news_cache.dfy`): the snapshot and the 24-hour freshness rule of `load_cache`.
- `NewsEndpoint` (`news_endpoint.dfy`): one request as the function `Serve`, and the class `NewsServer`. Its field `cacheFile` is the cache file. Its methods `LoadCache`, `SaveCache` and `GetNews` mirror `load_cache`, `save_cache` and `get_news`, and `GetNews` is proved equal to `Serve`.

Inputs that the source obtains by I/O are parameters here:

- The clock is an integer count of microseconds (UTC). This is the resolution that `isoformat` writes and `fromisoformat` reads back. The handler reads the clock twice, once in `load_cache` and once in `save_cache`. The model therefore takes two readings, `now` and `savedAt`.
- The news provider is a function `network: string -> Reply` of the requested URL. The URL is `NEWS_API_URL` followed by the topic. `Reply.Failed` stands for every way the reply fails before `results` is read: `requests.get` raising, `response.json()` raising, or a JSON body that is not an object, on which `data.get` raises `AttributeError`.
- The cache file is the field `NewsServer.cacheFile: Option<Snapshot>`. `None` means the file does not exist.

Any exception that escapes the handler is a `Failure` carrying an `Error`:

- `RequestFailed`: the HTTP call or the decoding of its reply raised, or the body is not a JSON object.
- `ResultsNotIterable`: `results` is present but null.
- `KeyError("title")` or `KeyError("source_url")`: the first entry missing one of these keys. `title` is reported first, because the dict literal is evaluated key by key.

A failed request writes nothing to the cache.

Failure paths of the handler that the model keeps as they are:

- A malformed cache file is not treated as a miss: `json.load` or a missing key raises (index.py:30-31).
- A provider error is not turned into an empty list: it propagates and nothing is cached (index.py:46-47, 55).
- `summary` can be null: a `description` key that is present with a null value is kept (index.py:50).

The handler asks one provider. It attaches no images and does not truncate the list.

## Model

| member | source | states |
|---|---|---|
| `Articles.NormaliseArticle` | index.py:48-52 | An entry normalises exactly when it has `title` and `source_url`. Otherwise the error is `KeyError`, naming `title` before `source_url`. `title` and `source` are copied from `title` and `source_url`. `summary` is `description` when that key is present, else "No description available.". `image` is `image_url` when that key is present, else "". |
| `Articles.NormaliseAll` | index.py:48-53 | The comprehension succeeds exactly when every entry has both required keys. It then keeps the number and the order of the entries, and element i is the normalisation of entry i. Otherwise it fails with the error of the first entry missing a required key. |
| `Articles.ArticlesOf` | index.py:46-53 | A failed fetch is `RequestFailed`. A reply without `results` gives an empty list. A null `results` is `ResultsNotIterable`. A list of entries gives exactly the comprehension's outcome `NormaliseAll`: the entries normalised in order, one article per entry, or the first failing entry's `KeyError`. |
| `Articles.NormaliseAsItem` | index.py:48-52 | Normalising an entry that carries all four read keys gives back the article those keys describe. |
| `Articles.NormaliseAllAsItems` | index.py:48-53 | Normalisation is the identity on a list of articles written back as entries. |
| `Articles.OnlyReadKeysMatter` | index.py:48-52 | Two entries that agree on `title`, `description`, `image_url` and `source_url` normalise to the same result. Every other key is ignored. |
| `Articles.NullIsKept` | index.py:50 | A `description` that is present with a null value stays null in `summary` and is not defaulted. |
| `NewsCache.Load` | index.py:27-33 | The stored news is returned exactly when a snapshot exists and its age at `now` is strictly below 24 hours. It is returned unchanged. Otherwise there is no value. |
| `NewsCache.SaveThenLoad` | index.py:31-38 | A snapshot written at `t` is read back unchanged at every instant before `t` plus 24 hours, and never from then on. |
| `NewsCache.ExpiryBoundary` | index.py:21-31 | A snapshot exactly 24 hours old is stale. One a microsecond younger is fresh. |
| `NewsCache.FreshAtEarlierInstants` | index.py:31 | A snapshot fresh at some instant was fresh, with the same news, at every earlier instant. |
| `NewsEndpoint.Serve` | index.py:41-56 | After any request, a successful answer is exactly the news the cache file then holds. A failed request leaves the file unchanged. The file is either unchanged or wholly replaced by a snapshot stamped `savedAt`. |
| `NewsEndpoint.CacheHit` | index.py:42-44 | A fresh, non-empty cached list is answered unchanged and the file is left as it was, for any topic and any provider. |
| `NewsEndpoint.HitIgnoresTopicAndProvider` | index.py:42-44 | On a hit, the outcome does not depend on the topic, the provider or the save-time clock. The cache is not keyed by topic and no fetch takes place. |
| `NewsEndpoint.CacheMiss` | index.py:42-56 | Without a truthy cached list, the answer is the normalised reply for `NEWS_API_URL` plus the topic. On success, the file becomes exactly `{savedAt, articles}`. On error, the file is unchanged. |
| `NewsEndpoint.FreshEmptyCacheIsRefetched` | index.py:43-56 | A fresh snapshot holding an empty list is falsy. It is refetched and overwritten. |
| `NewsEndpoint.EmptyProviderReplyIsCached` | index.py:53-56 | On a miss, a reply without results or with an empty `results` answers `[]` and caches `{savedAt, []}`. |
| `NewsEndpoint.RepeatWithinWindow` | index.py:31-44 | A request answered with a non-empty list is answered identically again, with the file untouched, by any request for any topic while the stored snapshot is fresh. |
| `NewsEndpoint.RepeatAfterMiss` | index.py:31-56 | After a miss saved a non-empty list at `savedAt`, every request before `savedAt` plus 24 hours answers that list without fetching. |
| `NewsEndpoint.StaleAfterWindow` | index.py:31-56 | Once 24 hours have passed since the save, the next request fetches again. |
| `NewsEndpoint.NewsServer.constructor` | index.py:20 | The server starts with the given cache file. |
| `NewsEndpoint.NewsServer.LoadCache` | index.py:27-33 | Reading the cache file at `now` returns what `Load` gives for the current file. |
| `NewsEndpoint.NewsServer.SaveCache` | index.py:36-38 | The cache file becomes exactly `{now, news}`, whatever it held before. |
| `NewsEndpoint.NewsServer.GetNews` | index.py:41-56 | The answer and the new cache file are those of `Serve` applied to the old file. A successful answer is the stored news. A failure leaves the file unchanged. |

## Left out

- The FastAPI application, the CORS middleware, the `/` route and the uvicorn start-up (index.py:8-17, 58-65) are framework plumbing.
- The HTTP request and the JSON decoding of the reply (index.py:46-47) are network I/O. They are the `network` parameter.
- File existence checks, opening, reading, writing and JSON (de)serialisation of the cache file (index.py:28-30, 37-38) are I/O. They are reads and writes of `cacheFile`, and every write succeeds.
- A malformed or hand-edited cache file is not modelled. Only `SaveCache` writes the file, so it always holds a well-formed snapshot. In the source such a file would make the request raise.
- ISO-8601 formatting and parsing, and `datetime.utcnow()`, are library calls. The clock is an integer parameter.
- JSON values other than strings and null inside an entry are not modelled. Numbers, booleans, arrays and objects are copied verbatim, just as strings are.
- A `results` value that is an object, string, number or boolean, and an entry that is not an object, are not modelled. Only a missing, null or list-valued `results` of objects is. A boolean or number `results` raises `TypeError` like null does; a string or object is iterated.
- Concurrent requests racing on the single cache file are not modelled. Each request is one atomic step.
- Serve and GetNews wrap a successful answer as `Success(news)`. The HTTP body `{"news": news}` and the 500 response for a `Failure` are not modelled.
