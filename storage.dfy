/** The persistence helper (src/utils/storage.ts) over the browser's key-value store. The
    synced partition holds the settings and the layout; the local partition holds the
    user's wallpaper image and the timestamped feed cache. Reads overlay what was saved on
    defaults, and a cached entry is live for thirty minutes after it was written. */
module Storage {
  import opened Wrappers
  import opened Types

  /** What a read of one storage key finds: nothing, a value, or a read that throws. */
  datatype Slot<T> = Missing | Stored(value: T) | Unreadable

  /** Saved settings as a record whose keys may each be absent; `customWallpaper` may be
      present with the value `null`. */
  datatype PartialSettings = PartialSettings(
    wallpaperType: Option<WallpaperType>,
    customWallpaper: Option<Option<string>>,
    searchEngine: Option<string>,
    language: Option<Language>,
    showClock: Option<bool>,
    showDate: Option<bool>)

  /** A saved layout whose keys may each be absent; `widgets` is `None` when the key is
      absent or does not hold an array. */
  datatype SavedLayout = SavedLayout(
    widgets: Option<seq<Widget>>,
    gridCols: Option<int>,
    gridRowHeight: Option<int>,
    gap: Option<int>,
    widgetOpacity: Option<real>)

  /** The data the feed adapters cache, one variant per adapter. */
  datatype Payload =
    | Repos(repos: seq<GitHubRepo>)
    | ZhihuList(items: seq<ZhihuItem>)
    | Topics(topics: seq<V2exTopic>)
    | Wallpaper(image: BingImage)

  /** A cache entry: the data and the clock reading (milliseconds) when it was written. */
  datatype Entry = Entry(data: Payload, timestamp: int)

  /** How a cache-or-fetch call settles, and the cache it leaves behind. */
  datatype CacheStep<T> = CacheStep(result: Completion<T>, cache: map<string, Entry>)

  /** Thirty minutes, in milliseconds. */
  const CacheTtl: int := 30 * 60 * 1000

  const DefaultSettings: Settings := Settings(Bing, None, "baidu", ZhCN, true, true)

  /** This file's default layout. It differs from the layout store's own default: it has
      no navigation widget, other rows and heights, a row height of 50 and no opacity. */
  const DefaultLayout: LayoutConfig := LayoutConfig(
    [ Widget("search", "search", "搜索", 2, 2, 8, 2, true),
      Widget("github", "github", "GitHub趋势", 0, 5, 4, 6, true),
      Widget("zhihu", "zhihu", "知乎热榜", 4, 5, 4, 6, true),
      Widget("v2ex", "v2ex", "V2EX热议", 8, 5, 4, 6, true) ],
    12, 50, 16, None)

  // ---------------------------------------------------------------------------
  // Settings
  // ---------------------------------------------------------------------------

  /** `{ ...base, ...saved }`: each key present in `saved` wins, every other key keeps
      the value in `base`. */
  function OverlaySettings(base: Settings, saved: PartialSettings): (r: Settings)
    ensures r.wallpaperType == if saved.wallpaperType.Some? then saved.wallpaperType.value else base.wallpaperType
    ensures r.customWallpaper == if saved.customWallpaper.Some? then saved.customWallpaper.value else base.customWallpaper
    ensures r.searchEngine == if saved.searchEngine.Some? then saved.searchEngine.value else base.searchEngine
    ensures r.language == if saved.language.Some? then saved.language.value else base.language
    ensures r.showClock == if saved.showClock.Some? then saved.showClock.value else base.showClock
    ensures r.showDate == if saved.showDate.Some? then saved.showDate.value else base.showDate
  {
    Settings(
      if saved.wallpaperType.Some? then saved.wallpaperType.value else base.wallpaperType,
      if saved.customWallpaper.Some? then saved.customWallpaper.value else base.customWallpaper,
      if saved.searchEngine.Some? then saved.searchEngine.value else base.searchEngine,
      if saved.language.Some? then saved.language.value else base.language,
      if saved.showClock.Some? then saved.showClock.value else base.showClock,
      if saved.showDate.Some? then saved.showDate.value else base.showDate)
  }

  /** The record `setSettings` writes: every key present. */
  function AllKeys(s: Settings): PartialSettings
  {
    PartialSettings(Some(s.wallpaperType), Some(s.customWallpaper), Some(s.searchEngine),
                    Some(s.language), Some(s.showClock), Some(s.showDate))
  }

  const NoKeys: PartialSettings := PartialSettings(None, None, None, None, None, None)

  /** getSettings: the defaults overlaid with what was saved; the defaults alone when
      nothing was saved or the read throws. */
  function SettingsFrom(read: Slot<PartialSettings>): (r: Settings)
  {
    match read
    case Stored(saved) => OverlaySettings(DefaultSettings, saved)
    case _ => DefaultSettings
  }

  /** A full record overlaid on anything is that record; an empty one changes nothing. */
  lemma OverlaySettingsExtremes(base: Settings, s: Settings)
    ensures OverlaySettings(base, AllKeys(s)) == s
    ensures OverlaySettings(base, NoKeys) == base
  {
  }

  /** getSettings answers the defaults when nothing usable was saved (the key is missing or
      the read throws) and when the saved record holds no key at all. */
  lemma SettingsFromDefaults(read: Slot<PartialSettings>)
    ensures !read.Stored? ==> SettingsFrom(read) == DefaultSettings
    ensures SettingsFrom(Stored(NoKeys)) == DefaultSettings
  {
  }

  /** Settings written by setSettings are read back unchanged by getSettings. */
  lemma SettingsRoundTrip(s: Settings)
    ensures SettingsFrom(Stored(AllKeys(s))) == s
  {
    OverlaySettingsExtremes(DefaultSettings, s);
  }

  // ---------------------------------------------------------------------------
  // Layout
  // ---------------------------------------------------------------------------

  /** getLayout: the defaults when nothing was saved or the read throws; otherwise the
      saved keys overlaid on the defaults, with the default widgets standing in for a
      `widgets` value that is not an array. */
  function LayoutFrom(read: Slot<SavedLayout>): (r: LayoutConfig)
    ensures !read.Stored? ==> r == DefaultLayout
    ensures read.Stored? ==>
      && r.widgets == (if read.value.widgets.Some? then read.value.widgets.value else DefaultLayout.widgets)
      && r.gridCols == (if read.value.gridCols.Some? then read.value.gridCols.value else DefaultLayout.gridCols)
      && r.gridRowHeight == (if read.value.gridRowHeight.Some? then read.value.gridRowHeight.value else DefaultLayout.gridRowHeight)
      && r.gap == (if read.value.gap.Some? then read.value.gap.value else DefaultLayout.gap)
      && r.widgetOpacity == (if read.value.widgetOpacity.Some? then read.value.widgetOpacity else DefaultLayout.widgetOpacity)
  {
    match read
    case Stored(saved) =>
      LayoutConfig(
        if saved.widgets.Some? then saved.widgets.value else DefaultLayout.widgets,
        if saved.gridCols.Some? then saved.gridCols.value else DefaultLayout.gridCols,
        if saved.gridRowHeight.Some? then saved.gridRowHeight.value else DefaultLayout.gridRowHeight,
        if saved.gap.Some? then saved.gap.value else DefaultLayout.gap,
        if saved.widgetOpacity.Some? then saved.widgetOpacity else DefaultLayout.widgetOpacity)
    case _ => DefaultLayout
  }

  /** The record `setLayout` writes. `widgetOpacity` is left out when it is not set. */
  function SavedFrom(l: LayoutConfig): SavedLayout
  {
    SavedLayout(Some(l.widgets), Some(l.gridCols), Some(l.gridRowHeight), Some(l.gap), l.widgetOpacity)
  }

  /** A layout written by setLayout is read back unchanged by getLayout. */
  lemma LayoutRoundTrip(l: LayoutConfig)
    ensures LayoutFrom(Stored(SavedFrom(l))) == l
  {
  }

  // ---------------------------------------------------------------------------
  // The user's wallpaper image
  // ---------------------------------------------------------------------------

  /** getWallpaper: `result.customWallpaper || null`. */
  function WallpaperFrom(read: Slot<string>): (r: Option<string>)
    ensures r.Some? <==> read.Stored? && read.value != ""
    ensures r.Some? ==> r.value == read.value
  {
    if read.Stored? && read.value != "" then Some(read.value) else None
  }

  // ---------------------------------------------------------------------------
  // The feed cache
  // ---------------------------------------------------------------------------

  /** getCachedData: the data under `key` if there is an entry and fewer than thirty
      minutes have passed since it was written; nothing otherwise. */
  function CachedData(cache: map<string, Entry>, key: string, now: int): (r: Option<Payload>)
    ensures r.Some? <==> key in cache && now - cache[key].timestamp < CacheTtl
    ensures r.Some? ==> r.value == cache[key].data
  {
    if key in cache && now - cache[key].timestamp < CacheTtl then Some(cache[key].data) else None
  }

  /** The comparison is strict: exactly thirty minutes after the write the entry is stale. */
  lemma StaleAtTtl(cache: map<string, Entry>, key: string, now: int)
    requires key in cache && now - cache[key].timestamp >= CacheTtl
    ensures CachedData(cache, key, now) == None
  {
  }

  /** Writing `data` under `key` at time `t` and reading it back at `t2` returns it
      while fewer than thirty minutes have passed, and nothing afterwards. */
  lemma CacheRoundTrip(cache: map<string, Entry>, key: string, data: Payload, t: int, t2: int)
    ensures t2 - t < CacheTtl ==> CachedData(cache[key := Entry(data, t)], key, t2) == Some(data)
    ensures t2 - t >= CacheTtl ==> CachedData(cache[key := Entry(data, t)], key, t2) == None
  {
  }

  /** Writing under one key never changes what another key reads. */
  lemma CacheWriteFrame(cache: map<string, Entry>, key: string, data: Payload, t: int, other: string, now: int)
    requires other != key
    ensures CachedData(cache[key := Entry(data, t)], other, now) == CachedData(cache, other, now)
  {
  }

  /** The browser's storage: one field per key the code reads and writes. */
  class ChromeStorage {
    /** Synced partition, key 'settings'. */
    var settings: Slot<PartialSettings>
    /** Synced partition, key 'layout'. */
    var layout: Slot<SavedLayout>
    /** Local partition, key 'customWallpaper'. */
    var customWallpaper: Slot<string>
    /** Local partition, the cache keys. */
    var cache: map<string, Entry>

    /** A fresh profile: nothing stored. */
    constructor ()
      ensures settings == Missing && layout == Missing && customWallpaper == Missing && cache == map[]
    {
      settings, layout, customWallpaper, cache := Missing, Missing, Missing, map[];
    }

    method GetSettings() returns (s: Settings)
      ensures s == SettingsFrom(settings)
    {
      s := SettingsFrom(settings);
    }

    method SetSettings(s: Settings)
      modifies this`settings
      ensures settings == Stored(AllKeys(s))
    {
      settings := Stored(AllKeys(s));
    }

    method GetLayout() returns (l: LayoutConfig)
      ensures l == LayoutFrom(layout)
    {
      l := LayoutFrom(layout);
    }

    method SetLayout(l: LayoutConfig)
      modifies this`layout
      ensures layout == Stored(SavedFrom(l))
    {
      layout := Stored(SavedFrom(l));
    }

    method GetWallpaper() returns (w: Option<string>)
      ensures w == WallpaperFrom(customWallpaper)
    {
      w := WallpaperFrom(customWallpaper);
    }

    method SetWallpaper(dataUrl: string)
      modifies this`customWallpaper
      ensures customWallpaper == Stored(dataUrl)
    {
      customWallpaper := Stored(dataUrl);
    }

    /** getCachedData. The read itself may throw (`fails`); the call catches that and
        answers nothing, exactly as for a missing or stale entry. */
    method GetCachedData(key: string, now: int, fails: bool) returns (r: Option<Payload>)
      ensures fails ==> r == None
      ensures !fails ==> r == CachedData(cache, key, now)
    {
      if fails {
        return None;
      }
      r := CachedData(cache, key, now);
    }

    /** setCachedData stamps the entry with the clock. The write itself may be rejected
        (`fails`), in which case nothing is stored and the caller's promise rejects. */
    method SetCachedData(key: string, data: Payload, now: int, fails: bool) returns (ok: bool)
      modifies this`cache
      ensures ok == !fails
      ensures cache == if ok then old(cache)[key := Entry(data, now)] else old(cache)
    {
      ok := !fails;
      if ok {
        cache := cache[key := Entry(data, now)];
      }
    }
  }
}
