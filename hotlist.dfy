/** The hot-list store (src/stores/hotlist.ts): one list per feed, with a loading flag and
    an error message per feed. A load is refused while the same feed is loading; otherwise
    it marks the feed as loading, asks the feed's adapter, settles the outcome into the
    feed's list and error, and clears the flag. Loads are modelled one at a time: the
    flag guards against a load of the same feed still in flight. */
module HotList {
  import opened Wrappers
  import opened Types
  import Storage
  import GitHub
  import Zhihu
  import V2ex
  import Bing

  datatype Feed = GitHubFeed | ZhihuFeed | V2exFeed

  /** One value per feed, like the store's `{ github, zhihu, v2ex }` records. */
  datatype PerFeed<T> = PerFeed(github: T, zhihu: T, v2ex: T)
  {
    function Get(f: Feed): T
    {
      match f
      case GitHubFeed => github
      case ZhihuFeed => zhihu
      case V2exFeed => v2ex
    }

    /** The record with one feed's value replaced and the other two kept. */
    function Set(f: Feed, v: T): (r: PerFeed<T>)
      ensures r.Get(f) == v
      ensures forall g :: g != f ==> r.Get(g) == Get(g)
    {
      match f
      case GitHubFeed => this.(github := v)
      case ZhihuFeed => this.(zhihu := v)
      case V2exFeed => this.(v2ex := v)
    }
  }

  const FailMessage: string := "获取失败，请稍后重试"

  /** A feed's list and error message once its load has settled. */
  datatype Settled<T> = Settled(list: seq<T>, error: string)

  /** How a load settles: a rejected call, or an empty answer to an unforced load, keeps
      the old list and reports the failure; any other answer replaces the list and leaves
      the error empty. */
  function Settle<T>(list: seq<T>, result: Completion<seq<T>>, force: bool): (r: Settled<T>)
    ensures result.Threw? ==> r == Settled(list, FailMessage)
    ensures result.Returned? && |result.value| == 0 && !force ==> r == Settled(list, FailMessage)
    ensures result.Returned? && (|result.value| > 0 || force) ==> r == Settled(result.value, "")
  {
    match result
    case Threw => Settled(list, FailMessage)
    case Returned(items) =>
      if |items| == 0 && !force then Settled(list, FailMessage) else Settled(items, "")
  }

  /** The error is the failure message or empty; it is empty exactly when the answer
      replaced the list, and the list changes only then. */
  lemma SettleErrorExactlyOnFailure<T>(list: seq<T>, result: Completion<seq<T>>, force: bool)
    ensures var r := Settle(list, result, force);
      && (r.error == "" || r.error == FailMessage)
      && (r.error == "" <==> result.Returned? && (|result.value| > 0 || force))
      && (r.error != "" ==> r.list == list)
      && (r.error == "" ==> r.list == result.value)
  {
  }

  /** A forced load that answers replaces the list, even with an empty one. */
  lemma ForcedEmptyClears<T>(list: seq<T>)
    ensures Settle(list, Returned([]), true) == Settled([], "")
    ensures Settle(list, Returned([]), false) == Settled(list, FailMessage)
  {
  }

  /** When neither V2EX host answers (and no live entry is read, whether because of
      `force`, a miss or a cache read that throws), the notice replaces the V2EX list and
      no error is shown, since the notice is a non-empty answer. */
  lemma V2exNoticeShownWithoutError(list: seq<V2exTopic>, cache: map<string, Storage.Entry>, force: bool, now: int, readFails: bool, writeFails: bool)
    requires force || readFails || V2ex.CachedTopics(cache, now).None?
    ensures Settle(list, V2ex.Hot(cache, force, now, FetchFailed, FetchFailed, readFails, writeFails).result, force) == Settled(V2ex.FallbackData, "")
  {
    V2ex.HotCachesOnlyCacheable(cache, force, now, FetchFailed, FetchFailed, readFails, writeFails);
  }

  /** The adapters' cache entries never collide: each period of the GitHub feed, the Zhihu
      feed, the V2EX feed and the Bing image have keys of their own. */
  lemma CacheKeysDisjoint(p: GitHub.Period)
    ensures GitHub.CacheKey(p) != Zhihu.CacheKey && GitHub.CacheKey(p) != V2ex.CacheKey
    ensures GitHub.CacheKey(p) != Bing.CacheKey
    ensures Zhihu.CacheKey != V2ex.CacheKey && Zhihu.CacheKey != Bing.CacheKey && V2ex.CacheKey != Bing.CacheKey
  {
    var key := GitHub.CacheKey(p);
    assert key[0] == 'g';
  }

  class HotListStore {
    var githubRepos: seq<GitHubRepo>
    var zhihuItems: seq<ZhihuItem>
    var v2exTopics: seq<V2exTopic>
    var loading: PerFeed<bool>
    var error: PerFeed<string>

    constructor ()
      ensures githubRepos == [] && zhihuItems == [] && v2exTopics == []
      ensures loading == PerFeed(false, false, false) && error == PerFeed("", "", "")
    {
      githubRepos, zhihuItems, v2exTopics := [], [], [];
      loading := PerFeed(false, false, false);
      error := PerFeed("", "", "");
    }

    /** The guard at the top of each load: refused while the feed is loading; otherwise the
        feed is marked as loading and its error cleared. */
    method Begin(feed: Feed) returns (started: bool)
      modifies this`loading, this`error
      ensures started == !old(loading.Get(feed))
      ensures started ==> loading == old(loading).Set(feed, true) && error == old(error).Set(feed, "")
      ensures !started ==> loading == old(loading) && error == old(error)
    {
      if loading.Get(feed) {
        return false;
      }
      loading := loading.Set(feed, true);
      error := error.Set(feed, "");
      started := true;
    }

    /** loadGitHubTrending. Refused while the feed is loading; otherwise the adapter's step
        is taken and settled into the GitHub list and error, and the flag is cleared. The
        other feeds' slots are not touched. */
    method LoadGitHubTrending(storage: Storage.ChromeStorage, period: GitHub.Period, force: bool, now: int,
                              response: Fetched<GitHub.SearchResponse>, readFails: bool, writeFails: bool)
      modifies this`githubRepos, this`loading, this`error, storage`cache
      ensures zhihuItems == old(zhihuItems) && v2exTopics == old(v2exTopics)
      ensures old(loading.github) ==>
        && githubRepos == old(githubRepos) && loading == old(loading) && error == old(error)
        && storage.cache == old(storage.cache)
      ensures !old(loading.github) ==>
        var step := GitHub.Trending(old(storage.cache), period, force, now, response, readFails, writeFails);
        var settled := Settle(old(githubRepos), step.result, force);
        && storage.cache == step.cache
        && githubRepos == settled.list
        && error == old(error).Set(GitHubFeed, settled.error)
        && loading == old(loading)
    {
      var started := Begin(GitHubFeed);
      if !started {
        return;
      }
      var result := GitHub.GetGitHubTrending(storage, period, force, now, response, readFails, writeFails);
      var settled := Settle(githubRepos, result, force);
      githubRepos := settled.list;
      error := error.Set(GitHubFeed, settled.error);
      loading := loading.Set(GitHubFeed, false);
    }

    /** loadZhihuHot, with the same steps over the Zhihu slots. */
    method LoadZhihuHot(storage: Storage.ChromeStorage, force: bool, now: int,
                        response: Fetched<Zhihu.HotListResponse>, readFails: bool, writeFails: bool)
      modifies this`zhihuItems, this`loading, this`error, storage`cache
      ensures githubRepos == old(githubRepos) && v2exTopics == old(v2exTopics)
      ensures old(loading.zhihu) ==>
        && zhihuItems == old(zhihuItems) && loading == old(loading) && error == old(error)
        && storage.cache == old(storage.cache)
      ensures !old(loading.zhihu) ==>
        var step := Zhihu.Hot(old(storage.cache), force, now, response, readFails, writeFails);
        var settled := Settle(old(zhihuItems), step.result, force);
        && storage.cache == step.cache
        && zhihuItems == settled.list
        && error == old(error).Set(ZhihuFeed, settled.error)
        && loading == old(loading)
    {
      var started := Begin(ZhihuFeed);
      if !started {
        return;
      }
      var result := Zhihu.GetZhihuHot(storage, force, now, response, readFails, writeFails);
      var settled := Settle(zhihuItems, result, force);
      zhihuItems := settled.list;
      error := error.Set(ZhihuFeed, settled.error);
      loading := loading.Set(ZhihuFeed, false);
    }

    /** loadV2exHot, with the same steps over the V2EX slots. */
    method LoadV2exHot(storage: Storage.ChromeStorage, force: bool, now: int,
                       primary: Fetched<seq<V2ex.RawTopic>>, backup: Fetched<seq<V2ex.RawTopic>>, readFails: bool, writeFails: bool)
      modifies this`v2exTopics, this`loading, this`error, storage`cache
      ensures githubRepos == old(githubRepos) && zhihuItems == old(zhihuItems)
      ensures old(loading.v2ex) ==>
        && v2exTopics == old(v2exTopics) && loading == old(loading) && error == old(error)
        && storage.cache == old(storage.cache)
      ensures !old(loading.v2ex) ==>
        var step := V2ex.Hot(old(storage.cache), force, now, primary, backup, readFails, writeFails);
        var settled := Settle(old(v2exTopics), step.result, force);
        && storage.cache == step.cache
        && v2exTopics == settled.list
        && error == old(error).Set(V2exFeed, settled.error)
        && loading == old(loading)
    {
      var started := Begin(V2exFeed);
      if !started {
        return;
      }
      var result := V2ex.GetV2exHot(storage, force, now, primary, backup, readFails, writeFails);
      var settled := Settle(v2exTopics, result, force);
      v2exTopics := settled.list;
      error := error.Set(V2exFeed, settled.error);
      loading := loading.Set(V2exFeed, false);
    }
  }
}
