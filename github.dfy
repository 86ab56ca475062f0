/** The GitHub "trending" adapter (src/api/github.ts): the ten most-starred repositories
    created within the chosen period, from the search API, with a thirty-minute cache per
    period. The search query's date arithmetic is not modelled: the HTTP exchange is an
    input (the parsed body, or a failure). */
module GitHub {
  import opened Wrappers
  import opened Types
  import Ecma
  import Storage

  datatype Period = Day | Week | Month

  function PeriodName(p: Period): string
  {
    match p
    case Day => "day"
    case Week => "week"
    case Month => "month"
  }

  const CachePrefix: string := "githubTrending_"

  /** `${CACHE_KEY}_${period}`: one cache entry per period. */
  function CacheKey(p: Period): (key: string)
    ensures |key| > |CachePrefix| && key[..|CachePrefix|] == CachePrefix
  {
    CachePrefix + PeriodName(p)
  }

  /** The three periods never share a cache entry. */
  lemma CacheKeysDistinct(p: Period, q: Period)
    ensures CacheKey(p) == CacheKey(q) <==> p == q
  {
    if CacheKey(p) == CacheKey(q) {
      assert CacheKey(p)[|CachePrefix|..] == PeriodName(p);
      assert CacheKey(q)[|CachePrefix|..] == PeriodName(q);
      assert PeriodName(p) == PeriodName(q);
    }
  }

  /** One element of the search result's `items`; the two optional fields may be `null`. */
  datatype RawRepo = RawRepo(
    name: string,
    full_name: string,
    description: Option<string>,
    stargazers_count: int,
    html_url: string,
    language: Option<string>)

  /** The search API's JSON body; `items` is `None` when it is absent. */
  datatype SearchResponse = SearchResponse(items: Option<seq<RawRepo>>)

  /** One repository as the dashboard shows it: no description becomes the empty string
      and no language becomes "Unknown". */
  function ShapeRepo(item: RawRepo): (r: GitHubRepo)
    ensures r.name == item.name && r.fullName == item.full_name
    ensures r.stars == item.stargazers_count && r.url == item.html_url
    ensures r.description == Ecma.Or(item.description, "")
    ensures r.language == Ecma.Or(item.language, "Unknown") && r.language != ""
  {
    GitHubRepo(item.name, item.full_name, Ecma.Or(item.description, ""), item.stargazers_count,
               item.html_url, Ecma.Or(item.language, "Unknown"))
  }

  /** fetchGitHubTrending: every returned item shaped, in the API's order; the empty list
      when the request fails or the body has no `items` (reading `.map` of `undefined`
      throws into the same handler). */
  function FetchGitHubTrending(response: Fetched<SearchResponse>): (r: seq<GitHubRepo>)
    ensures response.Parsed? && response.body.items.Some? ==>
      var items := response.body.items.value;
      |r| == |items| && forall i :: 0 <= i < |r| ==> r[i] == ShapeRepo(items[i])
    ensures !(response.Parsed? && response.body.items.Some?) ==> r == []
  {
    match response
    case FetchFailed => []
    case Parsed(body) =>
      match body.items
      case None => []
      case Some(items) => seq(|items|, i requires 0 <= i < |items| => ShapeRepo(items[i]))
  }

  /** The repositories held under a period's cache key, if a live entry holds some. */
  function CachedRepos(cache: map<string, Storage.Entry>, p: Period, now: int): (r: Option<seq<GitHubRepo>>)
    ensures r.Some? ==> Storage.CachedData(cache, CacheKey(p), now) == Some(Storage.Repos(r.value))
    ensures Storage.CachedData(cache, CacheKey(p), now).None? ==> r.None?
    ensures forall v :: Storage.CachedData(cache, CacheKey(p), now) == Some(Storage.Repos(v)) ==> r == Some(v)
  {
    match Storage.CachedData(cache, CacheKey(p), now)
    case Some(Repos(repos)) => Some(repos)
    case _ => None
  }

  /** getGitHubTrending: unless `force` is set, a live cached list for the period is
      returned without a request; otherwise the fetched list is returned, after it has
      been cached under the period's key when it is non-empty. A rejected cache write
      rejects the call; a cache read that throws (`readFails`) counts as a miss. */
  function Trending(cache: map<string, Storage.Entry>, period: Period, force: bool, now: int,
                    response: Fetched<SearchResponse>, readFails: bool, writeFails: bool): (r: Storage.CacheStep<seq<GitHubRepo>>)
    ensures forall k :: k in cache && k != CacheKey(period) ==> k in r.cache && r.cache[k] == cache[k]
    ensures forall k :: k in r.cache ==> k in cache || k == CacheKey(period)
    ensures r.result.Threw? ==> writeFails
  {
    var cached := if readFails then None else CachedRepos(cache, period, now);
    if !force && cached.Some? then Storage.CacheStep(Returned(cached.value), cache)
    else
      var repos := FetchGitHubTrending(response);
      if |repos| == 0 then Storage.CacheStep(Returned(repos), cache)
      else if writeFails then Storage.CacheStep(Threw, cache)
      else Storage.CacheStep(Returned(repos), cache[CacheKey(period) := Storage.Entry(Storage.Repos(repos), now)])
  }

  /** Without `force`, a live list for the period is answered whatever the network would
      have said, and the cache is left as it was. */
  lemma TrendingServesLiveCache(cache: map<string, Storage.Entry>, period: Period, now: int,
                                response: Fetched<SearchResponse>, writeFails: bool)
    requires CachedRepos(cache, period, now).Some?
    ensures Trending(cache, period, false, now, response, false, writeFails) ==
      Storage.CacheStep(Returned(CachedRepos(cache, period, now).value), cache)
  {
  }

  /** A cache read that throws is caught and treated as a miss: the call behaves as a
      forced refresh, fetching and caching anew even when a live list is stored. */
  lemma TrendingFailedReadFetches(cache: map<string, Storage.Entry>, period: Period, force: bool, now: int,
                                  response: Fetched<SearchResponse>, writeFails: bool)
    ensures Trending(cache, period, force, now, response, true, writeFails) ==
      Trending(cache, period, true, now, response, false, writeFails)
  {
  }

  /** With `force`, without a live entry, or when the cache read throws, the call answers
      the fetched list (or rejects when caching it fails), and the cache changes only by
      storing that very list, stamped now, under the period's key. An empty list is never
      stored. */
  lemma TrendingCachesOnlyNonEmpty(cache: map<string, Storage.Entry>, period: Period, force: bool, now: int,
                                   response: Fetched<SearchResponse>, readFails: bool, writeFails: bool)
    requires force || readFails || CachedRepos(cache, period, now).None?
    ensures var step := Trending(cache, period, force, now, response, readFails, writeFails);
      var repos := FetchGitHubTrending(response);
      && (step.result == Returned(repos) || (step.result.Threw? && writeFails && |repos| > 0))
      && (step.cache == cache || (|repos| > 0 && step.result == Returned(repos) &&
            step.cache == cache[CacheKey(period) := Storage.Entry(Storage.Repos(repos), now)]))
      && (|repos| == 0 ==> step.cache == cache)
  {
  }

  /** A list fetched and cached at `now` is what any later call for the same period
      answers, without a request, while fewer than thirty minutes have passed. */
  lemma TrendingReadBack(cache: map<string, Storage.Entry>, period: Period, force: bool, now: int,
                         response: Fetched<SearchResponse>, readFails: bool, writeFails: bool,
                         later: int, response2: Fetched<SearchResponse>, writeFails2: bool)
    requires force || readFails || CachedRepos(cache, period, now).None?
    requires |FetchGitHubTrending(response)| > 0 && !writeFails && later - now < Storage.CacheTtl
    ensures var after := Trending(cache, period, force, now, response, readFails, writeFails).cache;
      Trending(after, period, false, later, response2, false, writeFails2).result == Returned(FetchGitHubTrending(response))
  {
    Storage.CacheRoundTrip(cache, CacheKey(period), Storage.Repos(FetchGitHubTrending(response)), now, later);
  }

  /** A call for one period never changes what another period (or any other key) reads. */
  lemma TrendingPeriodsIndependent(cache: map<string, Storage.Entry>, period: Period, force: bool, now: int,
                                   response: Fetched<SearchResponse>, readFails: bool, writeFails: bool, other: string, t: int)
    requires other != CacheKey(period)
    ensures Storage.CachedData(Trending(cache, period, force, now, response, readFails, writeFails).cache, other, t) == Storage.CachedData(cache, other, t)
    ensures forall q :: q != period ==>
      CachedRepos(Trending(cache, period, force, now, response, readFails, writeFails).cache, q, t) == CachedRepos(cache, q, t)
  {
    forall q | q != period
      ensures CachedRepos(Trending(cache, period, force, now, response, readFails, writeFails).cache, q, t) == CachedRepos(cache, q, t)
    {
      CacheKeysDistinct(period, q);
    }
  }

  /** The call itself, over the browser's storage. */
  method GetGitHubTrending(storage: Storage.ChromeStorage, period: Period, force: bool, now: int,
                           response: Fetched<SearchResponse>, readFails: bool, writeFails: bool)
    returns (r: Completion<seq<GitHubRepo>>)
    modifies storage`cache
    ensures Storage.CacheStep(r, storage.cache) == Trending(old(storage.cache), period, force, now, response, readFails, writeFails)
  {
    if !force {
      var cached := storage.GetCachedData(CacheKey(period), now, readFails);
      if cached.Some? && cached.value.Repos? {
        return Returned(cached.value.repos);
      }
    }
    var repos := FetchGitHubTrending(response);
    if |repos| > 0 {
      var ok := storage.SetCachedData(CacheKey(period), Storage.Repos(repos), now, writeFails);
      if !ok {
        return Threw;
      }
    }
    r := Returned(repos);
  }
}
