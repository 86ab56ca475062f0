/** The Bing daily-image adapter (src/api/bing.ts): one request for today's image, its
    path made absolute, and a thirty-minute cache in front of it. The HTTP exchange is an
    input: the parsed body, or a failure. */
module Bing {
  import opened Wrappers
  import opened Types
  import Storage

  const CacheKey: string := "bingWallpaper"
  const BaseUrl: string := "https://www.bing.com"

  /** One element of the archive's `images` array; `url` is a site-relative path. */
  datatype RawImage = RawImage(url: string, title: string, copyright: string)

  /** The archive's JSON body; `images` is `None` when it is absent or not an array. */
  datatype ArchiveResponse = ArchiveResponse(images: Option<seq<RawImage>>)

  /** fetchBingWallpaper: the first image of the archive with its path prefixed by the
      site's address, or nothing when the request fails or the archive is empty. */
  function FetchBingWallpaper(response: Fetched<ArchiveResponse>): (r: Option<BingImage>)
    ensures r.Some? <==> response.Parsed? && response.body.images.Some? && |response.body.images.value| > 0
    ensures r.Some? ==>
      var image := response.body.images.value[0];
      && r.value.url == BaseUrl + image.url
      && r.value.title == image.title
      && r.value.copyright == image.copyright
  {
    match response
    case FetchFailed => None
    case Parsed(body) =>
      if body.images.Some? && |body.images.value| > 0 then
        var image := body.images.value[0];
        Some(BingImage(BaseUrl + image.url, image.title, image.copyright))
      else None
  }

  /** The image's absolute address always names the Bing site, and the path the archive
      gave can be read back from it. */
  lemma WallpaperUrlOnBing(response: Fetched<ArchiveResponse>)
    requires FetchBingWallpaper(response).Some?
    ensures var url := FetchBingWallpaper(response).value.url;
      && |url| >= |BaseUrl| && url[..|BaseUrl|] == BaseUrl
      && url[|BaseUrl|..] == response.body.images.value[0].url
  {
  }

  /** The image held under the cache key, if a live entry holds one. */
  function CachedWallpaper(cache: map<string, Storage.Entry>, now: int): (r: Option<BingImage>)
    ensures r.Some? ==> Storage.CachedData(cache, CacheKey, now) == Some(Storage.Wallpaper(r.value))
    ensures Storage.CachedData(cache, CacheKey, now).None? ==> r.None?
    ensures forall v :: Storage.CachedData(cache, CacheKey, now) == Some(Storage.Wallpaper(v)) ==> r == Some(v)
  {
    match Storage.CachedData(cache, CacheKey, now)
    case Some(Wallpaper(image)) => Some(image)
    case _ => None
  }

  /** getWallpaper: a live cached image is returned without a request; otherwise the
      fetched image is returned, after it has been cached when there is one. A rejected
      cache write rejects the call; a cache read that throws (`readFails`) counts as a miss. */
  function Wallpaper(cache: map<string, Storage.Entry>, now: int, response: Fetched<ArchiveResponse>, readFails: bool, writeFails: bool)
    : (r: Storage.CacheStep<Option<BingImage>>)
    ensures forall k :: k in cache && k != CacheKey ==> k in r.cache && r.cache[k] == cache[k]
    ensures forall k :: k in r.cache ==> k in cache || k == CacheKey
    ensures r.result.Threw? ==> writeFails
  {
    var cached := if readFails then None else CachedWallpaper(cache, now);
    if cached.Some? then Storage.CacheStep(Returned(cached), cache)
    else
      var wallpaper := FetchBingWallpaper(response);
      if wallpaper.None? then Storage.CacheStep(Returned(None), cache)
      else if writeFails then Storage.CacheStep(Threw, cache)
      else Storage.CacheStep(Returned(wallpaper), cache[CacheKey := Storage.Entry(Storage.Wallpaper(wallpaper.value), now)])
  }

  /** The cache is always consulted first: a live image is answered whatever the network
      would have said, and the cache is left as it was. */
  lemma WallpaperServesLiveCache(cache: map<string, Storage.Entry>, now: int, response: Fetched<ArchiveResponse>, writeFails: bool)
    requires CachedWallpaper(cache, now).Some?
    ensures Wallpaper(cache, now, response, false, writeFails) == Storage.CacheStep(Returned(CachedWallpaper(cache, now)), cache)
  {
  }

  /** Without a live entry, or when the cache read throws, the call answers the fetched
      image (or rejects when caching it fails), and the cache changes only by storing that
      very image, stamped now. Nothing is stored when there is no image. */
  lemma WallpaperCachesOnlyImages(cache: map<string, Storage.Entry>, now: int, response: Fetched<ArchiveResponse>, readFails: bool, writeFails: bool)
    requires readFails || CachedWallpaper(cache, now).None?
    ensures var step := Wallpaper(cache, now, response, readFails, writeFails);
      var fetched := FetchBingWallpaper(response);
      && (step.result == Returned(fetched) || (step.result.Threw? && writeFails && fetched.Some?))
      && (step.cache == cache || (fetched.Some? && step.result == Returned(fetched) &&
            step.cache == cache[CacheKey := Storage.Entry(Storage.Wallpaper(fetched.value), now)]))
      && (fetched.None? ==> step.cache == cache)
  {
  }

  /** An image fetched and cached at `now` is what any later call answers, without a
      request, while fewer than thirty minutes have passed. */
  lemma WallpaperReadBack(cache: map<string, Storage.Entry>, now: int, response: Fetched<ArchiveResponse>, readFails: bool, writeFails: bool,
                          later: int, response2: Fetched<ArchiveResponse>, writeFails2: bool)
    requires readFails || CachedWallpaper(cache, now).None?
    requires Wallpaper(cache, now, response, readFails, writeFails).result == Returned(FetchBingWallpaper(response))
    requires FetchBingWallpaper(response).Some? && later - now < Storage.CacheTtl
    ensures var after := Wallpaper(cache, now, response, readFails, writeFails).cache;
      Wallpaper(after, later, response2, false, writeFails2).result == Returned(FetchBingWallpaper(response))
  {
    var image := FetchBingWallpaper(response).value;
    Storage.CacheRoundTrip(cache, CacheKey, Storage.Wallpaper(image), now, later);
  }

  /** getWallpaper touches no cache key but its own. */
  lemma WallpaperFrame(cache: map<string, Storage.Entry>, now: int, response: Fetched<ArchiveResponse>, readFails: bool, writeFails: bool,
                       other: string, t: int)
    requires other != CacheKey
    ensures Storage.CachedData(Wallpaper(cache, now, response, readFails, writeFails).cache, other, t) == Storage.CachedData(cache, other, t)
  {
  }

  /** The call itself, over the browser's storage. */
  method GetWallpaper(storage: Storage.ChromeStorage, now: int, response: Fetched<ArchiveResponse>, readFails: bool, writeFails: bool)
    returns (r: Completion<Option<BingImage>>)
    modifies storage`cache
    ensures Storage.CacheStep(r, storage.cache) == Wallpaper(old(storage.cache), now, response, readFails, writeFails)
  {
    var cached := storage.GetCachedData(CacheKey, now, readFails);
    if cached.Some? && cached.value.Wallpaper? {
      return Returned(Some(cached.value.image));
    }
    var wallpaper := FetchBingWallpaper(response);
    if wallpaper.Some? {
      var ok := storage.SetCachedData(CacheKey, Storage.Wallpaper(wallpaper.value), now, writeFails);
      if !ok {
        return Threw;
      }
    }
    r := Returned(wallpaper);
  }
}
