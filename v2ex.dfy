/** The V2EX hot-topics adapter (src/api/v2ex.ts): the first ten hot topics from the
    primary host, then from the backup host when the primary fails, then a fixed
    two-entry notice when both fail; with a thirty-minute cache that never holds the
    notice. Both HTTP exchanges are inputs (the parsed body, or a failure); the backup
    exchange only matters when the primary one fails. */
module V2ex {
  import opened Wrappers
  import opened Types
  import Ecma
  import Storage

  const CacheKey: string := "v2exHot"
  const MaxTopics: nat := 10
  const DefaultNode: string := "V2EX"

  /** The title of the notice's first entry, which the cache refuses. */
  const NoticeTitle: string := "V2EX 热门话题 - 当前无法访问"

  /** What is shown when neither host answers. */
  const FallbackData: seq<V2exTopic> := [
    V2exTopic(NoticeTitle, "https://v2ex.com", 0, "公告"),
    V2exTopic("请检查网络连接或稍后重试", "https://v2ex.com", 0, "提示")
  ]

  datatype RawNode = RawNode(title: Option<string>)

  /** One element of the hot-topics array; `node` may be absent. A body that is not an
      array counts as a failed exchange. */
  datatype RawTopic = RawTopic(title: string, url: string, replies: int, node: Option<RawNode>)

  /** `item.node?.title || 'V2EX'`. */
  function NodeName(node: Option<RawNode>): (r: string)
    ensures node.Some? && node.value.title.Some? && node.value.title.value != "" ==> r == node.value.title.value
    ensures !(node.Some? && node.value.title.Some? && node.value.title.value != "") ==> r == DefaultNode
  {
    match node
    case None => DefaultNode
    case Some(n) => Ecma.Or(n.title, DefaultNode)
  }

  /** The first ten topics, in order, with their node's name. */
  function ShapeTopics(data: seq<RawTopic>): (r: seq<V2exTopic>)
    ensures |r| == if |data| < MaxTopics then |data| else MaxTopics
    ensures forall i :: 0 <= i < |r| ==>
      r[i] == V2exTopic(data[i].title, data[i].url, data[i].replies, NodeName(data[i].node))
  {
    var top := Ecma.Take(data, MaxTopics);
    seq(|top|, i requires 0 <= i < |top| => V2exTopic(top[i].title, top[i].url, top[i].replies, NodeName(top[i].node)))
  }

  /** fetchV2exHot never fails: the primary host's topics when it answers, else the backup
      host's, else the notice. */
  function FetchV2exHot(primary: Fetched<seq<RawTopic>>, backup: Fetched<seq<RawTopic>>): (r: seq<V2exTopic>)
    ensures primary.Parsed? ==> r == ShapeTopics(primary.body)
    ensures primary.FetchFailed? && backup.Parsed? ==> r == ShapeTopics(backup.body)
    ensures primary.FetchFailed? && backup.FetchFailed? ==> r == FallbackData
    ensures |r| <= MaxTopics
  {
    match primary
    case Parsed(data) => ShapeTopics(data)
    case FetchFailed =>
      match backup
      case Parsed(data) => ShapeTopics(data)
      case FetchFailed => FallbackData
  }

  /** The list getV2exHot is willing to cache: non-empty and not the notice. */
  predicate Cacheable(topics: seq<V2exTopic>)
  {
    |topics| > 0 && topics[0].title != NoticeTitle
  }

  /** The notice is never cached. */
  lemma FallbackNeverCached()
    ensures !Cacheable(FallbackData)
    ensures !Cacheable(FetchV2exHot(FetchFailed, FetchFailed))
  {
  }

  /** A host's answer is cached exactly when it holds a topic and its first topic is not
      titled like the notice. */
  lemma CacheableAnswer(data: seq<RawTopic>)
    ensures Cacheable(ShapeTopics(data)) <==> |data| > 0 && data[0].title != NoticeTitle
  {
  }

  /** The topics held under the cache key, if a live entry holds some. */
  function CachedTopics(cache: map<string, Storage.Entry>, now: int): (r: Option<seq<V2exTopic>>)
    ensures r.Some? ==> Storage.CachedData(cache, CacheKey, now) == Some(Storage.Topics(r.value))
    ensures Storage.CachedData(cache, CacheKey, now).None? ==> r.None?
    ensures forall v :: Storage.CachedData(cache, CacheKey, now) == Some(Storage.Topics(v)) ==> r == Some(v)
  {
    match Storage.CachedData(cache, CacheKey, now)
    case Some(Topics(topics)) => Some(topics)
    case _ => None
  }

  /** getV2exHot: unless `force` is set, a live cached list is returned without a request;
      otherwise the fetched list is returned, after it has been cached when it is
      cacheable. A rejected cache write rejects the call; a cache read that throws
      (`readFails`) counts as a miss. */
  function Hot(cache: map<string, Storage.Entry>, force: bool, now: int,
               primary: Fetched<seq<RawTopic>>, backup: Fetched<seq<RawTopic>>, readFails: bool, writeFails: bool)
    : (r: Storage.CacheStep<seq<V2exTopic>>)
    ensures forall k :: k in cache && k != CacheKey ==> k in r.cache && r.cache[k] == cache[k]
    ensures forall k :: k in r.cache ==> k in cache || k == CacheKey
    ensures r.result.Threw? ==> writeFails
  {
    var cached := if readFails then None else CachedTopics(cache, now);
    if !force && cached.Some? then Storage.CacheStep(Returned(cached.value), cache)
    else
      var topics := FetchV2exHot(primary, backup);
      if !(|topics| > 0 && topics[0].title != NoticeTitle) then Storage.CacheStep(Returned(topics), cache)
      else if writeFails then Storage.CacheStep(Threw, cache)
      else Storage.CacheStep(Returned(topics), cache[CacheKey := Storage.Entry(Storage.Topics(topics), now)])
  }

  /** Without `force`, a live list is answered whatever either host would have said, and
      the cache is left as it was. */
  lemma HotServesLiveCache(cache: map<string, Storage.Entry>, now: int,
                           primary: Fetched<seq<RawTopic>>, backup: Fetched<seq<RawTopic>>, writeFails: bool)
    requires CachedTopics(cache, now).Some?
    ensures Hot(cache, false, now, primary, backup, false, writeFails) == Storage.CacheStep(Returned(CachedTopics(cache, now).value), cache)
  {
  }

  /** A cache read that throws is caught and treated as a miss: the call behaves as a
      forced refresh, asking the hosts and caching anew even when a live list is stored. */
  lemma HotFailedReadFetches(cache: map<string, Storage.Entry>, force: bool, now: int,
                             primary: Fetched<seq<RawTopic>>, backup: Fetched<seq<RawTopic>>, writeFails: bool)
    ensures Hot(cache, force, now, primary, backup, true, writeFails) == Hot(cache, true, now, primary, backup, false, writeFails)
  {
  }

  /** With `force`, without a live entry, or when the cache read throws, the call answers
      the fetched list (or rejects when caching it fails), and the cache changes only by
      storing that very list, stamped now, when it is cacheable; in particular the notice
      is never stored. */
  lemma HotCachesOnlyCacheable(cache: map<string, Storage.Entry>, force: bool, now: int,
                               primary: Fetched<seq<RawTopic>>, backup: Fetched<seq<RawTopic>>, readFails: bool, writeFails: bool)
    requires force || readFails || CachedTopics(cache, now).None?
    ensures var step := Hot(cache, force, now, primary, backup, readFails, writeFails);
      var topics := FetchV2exHot(primary, backup);
      && (step.result == Returned(topics) || (step.result.Threw? && writeFails && Cacheable(topics)))
      && (step.cache == cache || (Cacheable(topics) && step.result == Returned(topics) &&
            step.cache == cache[CacheKey := Storage.Entry(Storage.Topics(topics), now)]))
      && (primary.FetchFailed? && backup.FetchFailed? ==> step == Storage.CacheStep(Returned(FallbackData), cache))
  {
    FallbackNeverCached();
  }

  /** A list fetched and cached at `now` is what any later unforced call answers, without
      a request, while fewer than thirty minutes have passed. */
  lemma HotReadBack(cache: map<string, Storage.Entry>, force: bool, now: int,
                    primary: Fetched<seq<RawTopic>>, backup: Fetched<seq<RawTopic>>, readFails: bool, writeFails: bool,
                    later: int, primary2: Fetched<seq<RawTopic>>, backup2: Fetched<seq<RawTopic>>, writeFails2: bool)
    requires force || readFails || CachedTopics(cache, now).None?
    requires Cacheable(FetchV2exHot(primary, backup)) && !writeFails && later - now < Storage.CacheTtl
    ensures var after := Hot(cache, force, now, primary, backup, readFails, writeFails).cache;
      Hot(after, false, later, primary2, backup2, false, writeFails2).result == Returned(FetchV2exHot(primary, backup))
  {
    Storage.CacheRoundTrip(cache, CacheKey, Storage.Topics(FetchV2exHot(primary, backup)), now, later);
  }

  /** getV2exHot touches no cache key but its own. */
  lemma HotFrame(cache: map<string, Storage.Entry>, force: bool, now: int,
                 primary: Fetched<seq<RawTopic>>, backup: Fetched<seq<RawTopic>>, readFails: bool, writeFails: bool, other: string, t: int)
    requires other != CacheKey
    ensures Storage.CachedData(Hot(cache, force, now, primary, backup, readFails, writeFails).cache, other, t) == Storage.CachedData(cache, other, t)
  {
  }

  /** The call itself, over the browser's storage. */
  method GetV2exHot(storage: Storage.ChromeStorage, force: bool, now: int,
                    primary: Fetched<seq<RawTopic>>, backup: Fetched<seq<RawTopic>>, readFails: bool, writeFails: bool)
    returns (r: Completion<seq<V2exTopic>>)
    modifies storage`cache
    ensures Storage.CacheStep(r, storage.cache) == Hot(old(storage.cache), force, now, primary, backup, readFails, writeFails)
  {
    if !force {
      var cached := storage.GetCachedData(CacheKey, now, readFails);
      if cached.Some? && cached.value.Topics? {
        return Returned(cached.value.topics);
      }
    }
    var topics := FetchV2exHot(primary, backup);
    if |topics| > 0 && topics[0].title != NoticeTitle {
      var ok := storage.SetCachedData(CacheKey, Storage.Topics(topics), now, writeFails);
      if !ok {
        return Threw;
      }
    }
    r := Returned(topics);
  }
}
