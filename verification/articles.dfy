/**
 * The article normalisation of the `/news/{topic}` handler: every entry of the
 * provider's `results` list becomes a `{title, summary, image, source}` record,
 * in order, with defaults for the two optional fields.
 */
module Articles {
  import opened Wrappers

  /** A JSON value as it appears in a provider entry; `Null` is a JSON null. */
  datatype Value = Null | Str(s: string)

  /** One entry of the provider's `results` list: a JSON object. */
  type Item = map<string, Value>

  /** A normalised article; each field holds the JSON value copied or defaulted. */
  datatype Article = Article(title: Value, summary: Value, image: Value, source: Value)

  /** Why a request to `/news/{topic}` fails instead of answering. */
  datatype Error =
    | RequestFailed          // the HTTP call or the decoding of its body raised, or the body is not an object
    | ResultsNotIterable     // `results` is present but null
    | KeyError(key: string)  // an entry lacks a key read with `[]`

  /** What the provider's `results` key holds. */
  datatype Results = Missing | NullResults | List(items: seq<Item>)

  /** The outcome of `requests.get(...).json()`; `Failed` also covers a body that is not a JSON object. */
  datatype Reply = Failed | Json(results: Results)

  const NoDescription: string := "No description available."
  const NoImage: string := ""

  /** The two keys an entry must carry, since the handler reads them with `[]`. */
  predicate HasRequiredKeys(item: Item) {
    "title" in item && "source_url" in item
  }

  /** `dict.get(key, default)`: the stored value, even a null, else the default. */
  function GetOr(item: Item, key: string, default: Value): (v: Value)
    ensures key in item ==> v == item[key]
    ensures key !in item ==> v == default
  {
    if key in item then item[key] else default
  }

  /**
   * One step of the list comprehension. The dict literal is evaluated key by
   * key, so a missing `title` is reported before a missing `source_url`.
   */
  function NormaliseArticle(item: Item): (r: Result<Article, Error>)
    ensures r.Success? <==> HasRequiredKeys(item)
    ensures r.Failure? ==> r.error == KeyError(if "title" !in item then "title" else "source_url")
    ensures r.Success? ==> r.value.title == item["title"] && r.value.source == item["source_url"]
    ensures r.Success? && "description" in item ==> r.value.summary == item["description"]
    ensures r.Success? && "description" !in item ==> r.value.summary == Str(NoDescription)
    ensures r.Success? && "image_url" in item ==> r.value.image == item["image_url"]
    ensures r.Success? && "image_url" !in item ==> r.value.image == Str(NoImage)
  {
    if "title" !in item then Failure(KeyError("title"))
    else
      var summary := GetOr(item, "description", Str(NoDescription));
      var image := GetOr(item, "image_url", Str(NoImage));
      if "source_url" !in item then Failure(KeyError("source_url"))
      else Success(Article(item["title"], summary, image, item["source_url"]))
  }

  /**
   * The whole comprehension: it succeeds exactly when every entry carries the
   * required keys, and then keeps the number and the order of the entries;
   * otherwise it raises the error of the first entry that lacks one.
   */
  function NormaliseAll(items: seq<Item>): (r: Result<seq<Article>, Error>)
    ensures r.Success? <==> forall i :: 0 <= i < |items| ==> HasRequiredKeys(items[i])
    ensures r.Success? ==> |r.value| == |items|
    ensures r.Success? ==> forall i :: 0 <= i < |items| ==> NormaliseArticle(items[i]) == Success(r.value[i])
    ensures r.Failure? ==>
      exists k :: 0 <= k < |items| && NormaliseArticle(items[k]) == Failure(r.error) &&
                  forall j :: 0 <= j < k ==> HasRequiredKeys(items[j])
  {
    if items == [] then Success([])
    else
      match NormaliseArticle(items[0])
      case Failure(e) => Failure(e)
      case Success(a) =>
        match NormaliseAll(items[1..])
        case Failure(e) => 
          assert forall j :: 1 <= j < |items| ==> items[j] == items[1..][j - 1];
          Failure(e)
        case Success(rest) => Success([a] + rest)
  }

  /**
   * `data.get("results", [])` followed by the comprehension: a reply without
   * `results` gives no articles, a null `results` cannot be iterated.
   */
  function ArticlesOf(reply: Reply): (r: Result<seq<Article>, Error>)
    ensures reply.Failed? ==> r == Failure(RequestFailed)
    ensures reply == Json(Missing) ==> r == Success([])
    ensures reply == Json(NullResults) ==> r == Failure(ResultsNotIterable)
    ensures reply.Json? && reply.results.List? ==> r == NormaliseAll(reply.results.items)
    ensures reply.Json? && reply.results.List? && r.Success? ==> |r.value| == |reply.results.items|
  {
    match reply
    case Failed => Failure(RequestFailed)
    case Json(Missing) => Success([])
    case Json(NullResults) => Failure(ResultsNotIterable)
    case Json(List(items)) => NormaliseAll(items)
  }

  /** An article written back as a provider entry with the keys the handler reads. */
  function AsItem(a: Article): Item {
    map["title" := a.title, "description" := a.summary, "image_url" := a.image, "source_url" := a.source]
  }

  function AsItems(articles: seq<Article>): (items: seq<Item>)
    ensures |items| == |articles|
    ensures forall i :: 0 <= i < |articles| ==> items[i] == AsItem(articles[i])
  {
    seq(|articles|, i requires 0 <= i < |articles| => AsItem(articles[i]))
  }

  /** Normalising an entry that already carries every key gives back that article. */
  lemma NormaliseAsItem(a: Article)
    ensures NormaliseArticle(AsItem(a)) == Success(a)
  {
  }

  /** Normalisation is the identity on articles written back as entries. */
  lemma {:induction false} NormaliseAllAsItems(articles: seq<Article>)
    ensures NormaliseAll(AsItems(articles)) == Success(articles)
  {
    var r := NormaliseAll(AsItems(articles));
    forall i | 0 <= i < |articles| ensures HasRequiredKeys(AsItems(articles)[i]) {
      NormaliseAsItem(articles[i]);
    }
    assert r.Success? && |r.value| == |articles|;
    forall i | 0 <= i < |articles| ensures r.value[i] == articles[i] {
      NormaliseAsItem(articles[i]);
    }
    assert r.value == articles;
  }

  /** The keys the handler reads; any other key of an entry is ignored. */
  const ReadKeys: set<string> := {"title", "description", "image_url", "source_url"}

  /** An entry's other keys have no influence on the normalised article. */
  lemma OnlyReadKeysMatter(item: Item, other: Item)
    requires forall k :: k in ReadKeys ==> (k in item <==> k in other)
    requires forall k :: k in ReadKeys && k in item ==> item[k] == other[k]
    ensures NormaliseArticle(item) == NormaliseArticle(other)
  {
  }

  /** A null value under an optional key is kept as null, not replaced by the default. */
  lemma NullIsKept(item: Item)
    requires HasRequiredKeys(item)
    requires "description" in item && item["description"] == Null
    ensures NormaliseArticle(item).value.summary == Null
  {
  }
}
