/** The Zhihu hot-list adapter (src/api/zhihu.ts): the first ten entries of the hot list,
    each linked to its question page, with a thirty-minute cache. The HTTP exchange is an
    input (the parsed body, or a failure). */
module Zhihu {
  import opened Wrappers
  import opened Types
  import Ecma
  import Storage

  const CacheKey: string := "zhihuHot"
  const QuestionUrl: string := "https://www.zhihu.com/question/"
  const MaxItems: nat := 10

  /** The question an entry points at; its numeric id is kept as the text it prints as. */
  datatype RawTarget = RawTarget(title: string, id: string)

  /** One entry of the hot list; `detail_text` (the heat, as text) may be absent. */
  datatype RawHotItem = RawHotItem(target: RawTarget, detail_text: Option<string>)

  /** The hot list's JSON body; `data` is `None` when it is absent. */
  datatype HotListResponse = HotListResponse(data: Option<seq<RawHotItem>>)

  /** One entry as the dashboard shows it: a link to the question and the heat text, "0"
      when there is none. */
  function ShapeItem(item: RawHotItem): (r: ZhihuItem)
    ensures r.title == item.target.title
    ensures r.url == QuestionUrl + item.target.id
    ensures r.hot == Ecma.Or(item.detail_text, "0") && r.hot != ""
  {
    ZhihuItem(item.target.title, QuestionUrl + item.target.id, Ecma.Or(item.detail_text, "0"))
  }

  /** fetchZhihuHot: the first ten entries shaped, in the list's order; the empty list when
      the request fails or the body has no `data`. */
  function FetchZhihuHot(response: Fetched<HotListResponse>): (r: seq<ZhihuItem>)
    ensures |r| <= MaxItems
    ensures response.Parsed? && response.body.data.Some? ==>
      var data := response.body.data.value;
      && |r| == (if |data| < MaxItems then |data| else MaxItems)
      && forall i :: 0 <= i < |r| ==> r[i] == ShapeItem(data[i])
    ensures !(response.Parsed? && response.body.data.Some?) ==> r == []
  {
    match response
    case FetchFailed => []
    case Parsed(body) =>
      match body.data
      case None => []
      case Some(data) =>
        var top := Ecma.Take(data, MaxItems);
        seq(|top|, i requires 0 <= i < |top| => ShapeItem(top[i]))
  }

  /** Every link the adapter produces opens a question page, and the question's id can be
      read back from it. */
  lemma LinksOpenQuestions(response: Fetched<HotListResponse>, i: nat)
    requires i < |FetchZhihuHot(response)|
    ensures var url := FetchZhihuHot(response)[i].url;
      && url[..|QuestionUrl|] == QuestionUrl
      && url[|QuestionUrl|..] == response.body.data.value[i].target.id
  {
  }

  /** The entries held under the cache key, if a live entry holds some. */
  function CachedItems(cache: map<string, Storage.Entry>, now: int): (r: Option<seq<ZhihuItem>>)
    ensures r.Some? ==> Storage.CachedData(cache, CacheKey, now) == Some(Storage.ZhihuList(r.value))
    ensures Storage.CachedData(cache, CacheKey, now).None? ==> r.None?
    ensures forall v :: Storage.CachedData(cache, CacheKey, now) == Some(Storage.ZhihuList(v)) ==> r == Some(v)
  {
    match Storage.CachedData(cache, CacheKey, now)
    case Some(ZhihuList(items)) => Some(items)
    case _ => None
  }

  /** getZhihuHot: unless `force` is set, a live cached list is returned without a request;
      otherwise the fetched list is returned, after it has been cached when it is
      non-empty. A rejected cache write rejects the call; a cache read that throws
      (`readFails`) counts as a miss. */
  function Hot(cache: map<string, Storage.Entry>, force: bool, now: int,
               response: Fetched<HotListResponse>, readFails: bool, writeFails: bool): (r: Storage.CacheStep<seq<ZhihuItem>>)
    ensures forall k :: k in cache && k != CacheKey ==> k in r.cache && r.cache[k] == cache[k]
    ensures forall k :: k in r.cache ==> k in cache || k == CacheKey
    ensures r.result.Threw? ==> writeFails
  {
    var cached := if readFails then None else CachedItems(cache, now);
    if !force && cached.Some? then Storage.CacheStep(Returned(cached.value), cache)
    else
      var items := FetchZhihuHot(response);
      if |items| == 0 then Storage.CacheStep(Returned(items), cache)
      else if writeFails then Storage.CacheStep(Threw, cache)
      else Storage.CacheStep(Returned(items), cache[CacheKey := Storage.Entry(Storage.ZhihuList(items), now)])
  }

  /** Without `force`, a live list is answered whatever the network would have said, and
      the cache is left as it was. */
  lemma HotServesLiveCache(cache: map<string, Storage.Entry>, now: int, response: Fetched<HotListResponse>, writeFails: bool)
    requires CachedItems(cache, now).Some?
    ensures Hot(cache, false, now, response, false, writeFails) == Storage.CacheStep(Returned(CachedItems(cache, now).value), cache)
  {
  }

  /** A cache read that throws is caught and treated as a miss: the call behaves as a
      forced refresh, fetching and caching anew even when a live list is stored. */
  lemma HotFailedReadFetches(cache: map<string, Storage.Entry>, force: bool, now: int,
                             response: Fetched<HotListResponse>, writeFails: bool)
    ensures Hot(cache, force, now, response, true, writeFails) == Hot(cache, true, now, response, false, writeFails)
  {
  }

  /** With `force`, without a live entry, or when the cache read throws, the call answers
      the fetched list (or rejects when caching it fails), and the cache changes only by
      storing that very list, stamped now. An empty list is never stored. */
  lemma HotCachesOnlyNonEmpty(cache: map<string, Storage.Entry>, force: bool, now: int,
                              response: Fetched<HotListResponse>, readFails: bool, writeFails: bool)
    requires force || readFails || CachedItems(cache, now).None?
    ensures var step := Hot(cache, force, now, response, readFails, writeFails);
      var items := FetchZhihuHot(response);
      && (step.result == Returned(items) || (step.result.Threw? && writeFails && |items| > 0))
      && (step.cache == cache || (|items| > 0 && step.result == Returned(items) &&
            step.cache == cache[CacheKey := Storage.Entry(Storage.ZhihuList(items), now)]))
      && (|items| == 0 ==> step.cache == cache)
  {
  }

  /** A list fetched and cached at `now` is what any later unforced call answers, without
      a request, while fewer than thirty minutes have passed. */
  lemma HotReadBack(cache: map<string, Storage.Entry>, force: bool, now: int,
                    response: Fetched<HotListResponse>, readFails: bool, writeFails: bool,
                    later: int, response2: Fetched<HotListResponse>, writeFails2: bool)
    requires force || readFails || CachedItems(cache, now).None?
    requires |FetchZhihuHot(response)| > 0 && !writeFails && later - now < Storage.CacheTtl
    ensures var after := Hot(cache, force, now, response, readFails, writeFails).cache;
      Hot(after, false, later, response2, false, writeFails2).result == Returned(FetchZhihuHot(response))
  {
    Storage.CacheRoundTrip(cache, CacheKey, Storage.ZhihuList(FetchZhihuHot(response)), now, later);
  }

  /** getZhihuHot touches no cache key but its own. */
  lemma HotFrame(cache: map<string, Storage.Entry>, force: bool, now: int,
                 response: Fetched<HotListResponse>, readFails: bool, writeFails: bool, other: string, t: int)
    requires other != CacheKey
    ensures Storage.CachedData(Hot(cache, force, now, response, readFails, writeFails).cache, other, t) == Storage.CachedData(cache, other, t)
  {
  }

  /** The call itself, over the browser's storage. */
  method GetZhihuHot(storage: Storage.ChromeStorage, force: bool, now: int,
                     response: Fetched<HotListResponse>, readFails: bool, writeFails: bool)
    returns (r: Completion<seq<ZhihuItem>>)
    modifies storage`cache
    ensures Storage.CacheStep(r, storage.cache) == Hot(old(storage.cache), force, now, response, readFails, writeFails)
  {
    if !force {
      var cached := storage.GetCachedData(CacheKey, now, readFails);
      if cached.Some? && cached.value.ZhihuList? {
        return Returned(cached.value.items);
      }
    }
    var items := FetchZhihuHot(response);
    if |items| > 0 {
      var ok := storage.SetCachedData(CacheKey, Storage.ZhihuList(items), now, writeFails);
      if !ok {
        return Threw;
      }
    }
    r := Returned(items);
  }
}
