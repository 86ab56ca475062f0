# personal-newtab, modelled in Dafny

A model of the logic behind a browser new-tab dashboard. The dashboard shows a search box, a
Bing or user-chosen wallpaper, the weather, and three "hot list" feeds: GitHub trending
repositories, the Zhihu hot list and V2EX hot topics. Its widgets can be dragged, resized and
hidden on a 12-column grid.

The model covers four groups of code:

- **Storage helper** (`Storage`). This is the browser's key-value store: saved settings and
  layouts, the user's wallpaper image, and a feed cache whose entries stay live for thirty
  minutes. The synced partition and the wallpaper key are `Slot` fields (missing, stored, or
  a read that throws). The cache is a `map` field. Reads lay what was saved over the defaults.
- **Feed adapters** (`Bing`, `GitHub`, `Zhihu`, `V2ex`, `Weather`). Each adapter shapes a
  parsed API answer into the dashboard's records:
  - Bing takes the first image of the archive and makes its path absolute;
  - GitHub and the place search keep every item the API returned, in order;
  - Zhihu and V2EX keep the first ten entries;
  - GitHub, Zhihu, V2EX and the place search fill missing fields with defaults;
  - Bing and Zhihu build links, while GitHub and V2EX copy the link they are given.

  The weather code table is a plain lookup. The Bing, GitHub, Zhihu and V2EX `getX` calls are
  cache-or-fetch steps: serve a live entry (unless forced, for the three feeds; Bing's
  `getWallpaper` has no `force`), otherwise fetch, and write back only good answers. Every
  step is a pure function giving the call's outcome and the new cache. A method over the
  storage object is proved to take exactly that step.
- **Stores** (`Layout`, `HotList`, `UserSettings`). These are classes whose fields change the
  way the original stores' state does:
  - the layout store reconciles the saved widget list with its defaults, and has the
    per-widget updaters;
  - the hot-list store keeps a loading/error/list slot per feed, guarded against re-entry;
  - the settings store has the field setters and the wallpaper-selection rule.
- **Pure helpers** (`Constants`, `Ecma`). `buildSearchUrl` and `buildAIUrl` look up an id
  and fall back to the table's first entry, then replace `{query}` once with the encoded
  query. They use two ECMAScript built-ins, which are stated exactly in `Ecma`:
  - `String.prototype.replace` with a string pattern, including the `$` patterns of
    GetSubstitution (ECMA-262, 2022 edition, section 22.1.3.18);
  - `encodeURIComponent` (section 19.2.6.5), whose escapes are the percent-encoding of
    section 2.1 of RFC 3986 over UTF-8 (RFC 3629).

  `Ecma` also has a decoder, used only in proofs, to show that decoding the encoded query
  gives it back. It is exact on what `encodeURIComponent` produces and is not
  `decodeURIComponent`: for example, it rejects a raw character at or above U+0080.

Inputs stand in for I/O. A fetch is a `Fetched<T>` (a parsed body, or a failure). The clock
is a `now: int` argument. A cache read may throw (a `readFails` argument): `getCachedData`
catches that and answers nothing, so the adapter fetches as if the entry were missing, even
when a live entry is stored. A cache write may be rejected (a `writeFails` argument); that
is the only way a `getX` call rejects in this model. Async calls that may reject settle to a
`Completion<T>`.

Two behaviours the model makes explicit:

- The storage helper and the layout store each define their own default layout. With nothing
  saved, `loadLayout` merges the storage helper's list into the layout store's defaults
  (`Layout.FirstLoad`). The GitHub, Zhihu and V2EX widgets sit seven rows from the store's
  defaults, so they snap back to the store's geometry. The navigation widget is appended. The
  search widget has the same row in both defaults, so it keeps the storage helper's height of
  2, not the store's 5.
- The weather table's entry for code 1 is the English text " mainly clear" (leading space
  included), while every other entry is Chinese. The model keeps it as written.

## Model

| member | source | states |
|---|---|---|
| Ecma.Or | src/api/github.ts:39-42 | `v \|\| fallback` on an optional string: the value when present and non-empty, otherwise the fallback; never empty when the fallback is not |
| Ecma.Take | src/api/zhihu.ts:22 | `slice(0, n)`: the first min(n, length) elements, as a prefix of the input |
| Ecma.IndexOf | src/utils/constants.ts:65 | the first index where the pattern occurs, no earlier occurrence; none exactly when the text does not contain it |
| Ecma.SubstitutionLiteral | src/utils/constants.ts:65 | a replacement text without `$` is inserted literally by GetSubstitution |
| Ecma.ReplaceLiteral | src/utils/constants.ts:65 | `replace` with a `$`-free text splices it in place of the first occurrence only; a text without the pattern is unchanged |
| Ecma.EncodeURIComponent | src/utils/constants.ts:65 | the encoding consists only of unreserved characters and `%`, and is at least as long as the input |
| Ecma.EncodeUnreservedIdentity | src/utils/constants.ts:65 | a text of unreserved characters is encoded as itself |
| Ecma.EncodedHasNoSpecials | src/utils/constants.ts:65 | the encoding contains no `$`, `{` or `}` |
| Ecma.EncodeURIComponentRoundTrip | src/utils/constants.ts:63-71 | percent-decoding and strict UTF-8 decoding of the encoding gives back the original text |
| Storage.OverlaySettings | src/utils/storage.ts:28 | `{ ...base, ...saved }`: each key present in the saved record wins, every other key keeps the base value |
| Storage.OverlaySettingsExtremes | src/utils/storage.ts:28 | overlaying a complete record gives that record; overlaying an empty one changes nothing |
| Storage.SettingsFromDefaults | src/utils/storage.ts:25-32 | getSettings gives exactly the defaults when nothing is saved, when the read throws, or when the saved record is empty |
| Storage.SettingsRoundTrip | src/utils/storage.ts:25-36 | settings written by setSettings are read back unchanged by getSettings |
| Storage.LayoutFrom | src/utils/storage.ts:38-59 | getLayout: the storage defaults when nothing is saved or the read throws; otherwise each saved key over the defaults, with the default widgets when the saved `widgets` is not an array |
| Storage.LayoutRoundTrip | src/utils/storage.ts:38-63 | a layout written by setLayout is read back unchanged by getLayout |
| Storage.WallpaperFrom | src/utils/storage.ts:65-72 | the stored image exactly when one is stored and non-empty, null otherwise |
| Storage.CachedData | src/utils/storage.ts:78-89 | data is returned exactly when an entry exists and now − timestamp < 1 800 000 ms, and then it is the stored data |
| Storage.StaleAtTtl | src/utils/storage.ts:82 | at exactly thirty minutes after the write the entry is already stale |
| Storage.CacheRoundTrip | src/utils/storage.ts:78-95 | data written at t and read at t2 comes back exactly when t2 − t < 1 800 000, and nothing comes back otherwise |
| Storage.CacheWriteFrame | src/utils/storage.ts:91-95 | writing one key leaves what every other key reads unchanged |
| Storage.ChromeStorage.GetSettings | src/utils/storage.ts:25-32 | answers the stored settings over the defaults |
| Storage.ChromeStorage.SetSettings | src/utils/storage.ts:34-36 | stores every key of the settings |
| Storage.ChromeStorage.GetLayout | src/utils/storage.ts:38-59 | answers LayoutFrom of the stored slot |
| Storage.ChromeStorage.SetLayout | src/utils/storage.ts:61-63 | stores the layout's keys |
| Storage.ChromeStorage.GetWallpaper | src/utils/storage.ts:65-72 | answers WallpaperFrom of the stored slot |
| Storage.ChromeStorage.SetWallpaper | src/utils/storage.ts:74-76 | stores the image text |
| Storage.ChromeStorage.GetCachedData | src/utils/storage.ts:78-89 | answers CachedData of the cache at `now`; a read that throws is caught and answers nothing, like a miss |
| Storage.ChromeStorage.SetCachedData | src/utils/storage.ts:91-95 | on success the cache gains exactly the entry (data, now) under the key; on a rejected write it is unchanged |
| Layout.FindById | src/stores/layout.ts:49 | `find` by id: the first widget with that id; none exactly when no widget has it |
| Layout.AppendMissing | src/stores/layout.ts:37-45 | the list being built only grows at its end: what it started from is a prefix |
| Layout.MissingDefaultsMembers | src/stores/layout.ts:40-45 | a widget is appended exactly when it is a default whose id the saved list lacks |
| Layout.Snap | src/stores/layout.ts:48-60 | a drifted widget (row more than 5 from its default's) takes the default's x, y, w, h; id, type, title and visibility never change; any other widget is unchanged |
| Layout.SnapAll | src/stores/layout.ts:48-61 | same length, each widget snapped in place |
| Layout.MergeWidgets | src/stores/layout.ts:37-61 | the saved widgets, each snapped to its default, stay first and in order; MergeShape and AppendMissingIsFilter give the rest |
| Layout.LoadedLayout | src/stores/layout.ts:63-67 | the widgets are the merged list; the grid keys come from what getLayout answered; the opacity is the saved one or the store default 0.85 |
| Layout.AppendMissingCovers | src/stores/layout.ts:40-45 | after the appending loop every default id and every saved id occurs |
| Layout.MergeCoversDefaults | src/stores/layout.ts:36-61 | after the merge every default id occurs |
| Layout.AppendMissingIsFilter | src/stores/layout.ts:37-45 | the appending loop gives the saved list followed by the missing defaults in default order |
| Layout.MergeShape | src/stores/layout.ts:37-60 | length is saved length plus number of missing defaults; saved widgets keep their order (each snapped); missing defaults follow unchanged |
| Layout.MissingDefaultsDistinct | src/stores/layout.ts:40-45 | the appended defaults repeat no id |
| Layout.MergeKeepsDistinct | src/stores/layout.ts:36-61 | a saved list without repeated ids merges into a list without repeated ids |
| Layout.AppendMissingNothing | src/stores/layout.ts:40-45 | when every default id is present nothing is appended |
| Layout.SnapIdempotent | src/stores/layout.ts:48-60 | a snapped widget no longer drifts |
| Layout.MergeIdempotent | src/stores/layout.ts:36-61 | merging the merged list again gives the same list |
| Layout.LoadedLayoutIdempotent | src/stores/layout.ts:33-75 | loading a loaded layout again, or saving it and loading it back, gives the same layout |
| Layout.DefaultIdsDistinct | src/stores/layout.ts:6-18 | neither default widget list repeats an id |
| Layout.StorageDefaultIds | src/utils/storage.ts:12-22 | the storage defaults hold search, github, zhihu and v2ex but not navigation |
| Layout.FirstLoad | src/stores/layout.ts:33-67 | with nothing saved: search at (2,2,8,2), github, zhihu and v2ex snapped to row 12 with size 4×8, navigation appended at (2,8,8,3); grid 12/50/16, opacity 0.85 |
| Layout.Moved | src/stores/layout.ts:77-83 | only the first widget with the id gets the new x and y; its size and identity stay; every other widget is unchanged; an unknown id changes nothing |
| Layout.Resized | src/stores/layout.ts:85-91 | only the first widget with the id gets the new w and h; its position and identity stay; every other widget is unchanged; an unknown id changes nothing |
| Layout.Toggled | src/stores/layout.ts:93-98 | only the first widget with the id has `visible` flipped; its id, kind, title, position and size and every other widget are unchanged; an unknown id changes nothing |
| Layout.ToggleTwice | src/stores/layout.ts:93-98 | toggling the same id twice restores the list |
| Layout.UpdatesKeepIds | src/stores/layout.ts:77-98 | moving, resizing or toggling never adds or removes an id |
| Layout.VisibleOf | src/stores/layout.ts:25-27 | a widget is listed exactly when it is in the layout and visible |
| Layout.VisibleOfConcat | src/stores/layout.ts:25-27 | the filter keeps order: filtering a concatenation concatenates the filtered parts |
| Layout.ReconcileWidgets | src/stores/layout.ts:36-61 | the two loops of loadLayout compute exactly MergeWidgets |
| Layout.AddMissingDefaults | src/stores/layout.ts:37-45 | the appending loop computes exactly AppendMissing |
| Layout.SnapDrifted | src/stores/layout.ts:48-61 | the snapping loop, updating the list in place, computes exactly SnapAll |
| Layout.LayoutStore.constructor | src/stores/layout.ts:21-22 | starts from the store default, not editing |
| Layout.LayoutStore.VisibleWidgets | src/stores/layout.ts:25-27 | exactly the layout's visible widgets, in layout order (it is VisibleOf of the widgets, which VisibleOfConcat orders) |
| Layout.LayoutStore.LoadLayout | src/stores/layout.ts:33-71 | the layout becomes LoadedLayout of what getLayout answers |
| Layout.LayoutStore.SaveLayout | src/stores/layout.ts:73-75 | the storage holds the current layout |
| Layout.LayoutStore.UpdateWidgetPosition | src/stores/layout.ts:77-83 | the widgets become Moved, every other layout key unchanged |
| Layout.LayoutStore.UpdateWidgetSize | src/stores/layout.ts:85-91 | the widgets become Resized, every other layout key unchanged |
| Layout.LayoutStore.ToggleWidgetVisibility | src/stores/layout.ts:93-98 | the widgets become Toggled, every other layout key unchanged |
| Layout.LayoutStore.ResetLayout | src/stores/layout.ts:100-105 | the layout and the stored layout become the store default |
| Layout.LayoutStore.StartEditing | src/stores/layout.ts:107-109 | editing is on |
| Layout.LayoutStore.StopEditing | src/stores/layout.ts:111-114 | editing is off and the layout is saved |
| Layout.LayoutStore.UpdateWidgetOpacity | src/stores/layout.ts:120-122 | only the opacity changes |
| Bing.FetchBingWallpaper | src/api/bing.ts:7-25 | an image exactly when the request succeeds and `images` is non-empty; it is the first image, its url prefixed by https://www.bing.com, title and copyright copied |
| Bing.WallpaperUrlOnBing | src/api/bing.ts:15 | the image address starts with the Bing site and the archive's path can be read back from it |
| Bing.CachedWallpaper | src/api/bing.ts:28-31 | an image exactly when a live entry under `bingWallpaper` holds one, and then that image |
| Bing.Wallpaper | src/api/bing.ts:27-38 | getWallpaper as one step: only `bingWallpaper` may be written, and the call rejects only when a cache write is rejected |
| Bing.WallpaperServesLiveCache | src/api/bing.ts:28-31 | when the cache read succeeds, a live cached image is answered whatever the network says, and the cache is unchanged |
| Bing.WallpaperCachesOnlyImages | src/api/bing.ts:33-37 | with no live entry or a cache read that throws: the fetched image is answered (or the call rejects when caching it fails); the cache changes only by storing that image; no image, no write |
| Bing.WallpaperReadBack | src/api/bing.ts:27-38 | an image fetched and cached is answered by any later call within thirty minutes |
| Bing.WallpaperFrame | src/api/bing.ts:27-38 | no other cache key changes |
| Bing.GetWallpaper | src/api/bing.ts:27-38 | the call's outcome and the new cache are exactly the Wallpaper step |
| GitHub.CacheKey | src/api/github.ts:53 | every key starts with `githubTrending_` |
| GitHub.CacheKeysDistinct | src/api/github.ts:53 | two periods share a key exactly when they are the same period |
| GitHub.ShapeRepo | src/api/github.ts:36-43 | name, fullName, stars and url copied; description defaults to '' and language to 'Unknown' |
| GitHub.FetchGitHubTrending | src/api/github.ts:7-48 | with `items` present: one shaped repository per item, same order and count; any failure or no `items`: the empty list |
| GitHub.CachedRepos | src/api/github.ts:52-58 | a list exactly when a live entry under the period's key holds one, and then that list |
| GitHub.Trending | src/api/github.ts:50-67 | getGitHubTrending as one step: only the period's key may be written, and the call rejects only when a cache write is rejected |
| GitHub.TrendingServesLiveCache | src/api/github.ts:52-58 | unforced, with a live entry and a cache read that succeeds: the cached list is answered whatever the network says, and the cache is unchanged |
| GitHub.TrendingFailedReadFetches | src/utils/storage.ts:86-88 | a cache read that throws makes the call behave exactly like a forced refresh |
| GitHub.TrendingCachesOnlyNonEmpty | src/api/github.ts:60-67 | with no live entry, a cache read that throws, or `force`: the fetched list is answered (or the call rejects when caching fails); the cache changes only by storing that list under the period's key; an empty list is never stored |
| GitHub.TrendingReadBack | src/api/github.ts:50-67 | a list fetched and cached is answered by any later unforced call for the period within thirty minutes |
| GitHub.TrendingPeriodsIndependent | src/api/github.ts:53-65 | a call for one period never changes what another period or any other key reads |
| GitHub.GetGitHubTrending | src/api/github.ts:50-67 | the call's outcome and the new cache are exactly the Trending step |
| Zhihu.ShapeItem | src/api/zhihu.ts:22-26 | title copied; url is https://www.zhihu.com/question/ followed by the target id; hot is `detail_text` or the text '0' |
| Zhihu.FetchZhihuHot | src/api/zhihu.ts:7-34 | at most 10 items: with `data` present, the first min(10, n) entries shaped in order; any failure or no `data`: the empty list |
| Zhihu.LinksOpenQuestions | src/api/zhihu.ts:24 | every link opens a question page and the question id can be read back from it |
| Zhihu.CachedItems | src/api/zhihu.ts:38-44 | a list exactly when a live entry under `zhihuHot` holds one, and then that list |
| Zhihu.Hot | src/api/zhihu.ts:36-53 | getZhihuHot as one step: only `zhihuHot` may be written, and the call rejects only when a cache write is rejected |
| Zhihu.HotServesLiveCache | src/api/zhihu.ts:38-44 | unforced, with a live entry and a cache read that succeeds: the cached list is answered, cache unchanged |
| Zhihu.HotFailedReadFetches | src/utils/storage.ts:86-88 | a cache read that throws makes the call behave exactly like a forced refresh |
| Zhihu.HotCachesOnlyNonEmpty | src/api/zhihu.ts:46-53 | with no live entry, a cache read that throws, or `force`: the fetched list is answered (or the call rejects when caching fails); only that list is ever stored; an empty list never |
| Zhihu.HotReadBack | src/api/zhihu.ts:36-53 | a list fetched and cached is answered by any later unforced call within thirty minutes |
| Zhihu.HotFrame | src/api/zhihu.ts:36-53 | no other cache key changes |
| Zhihu.GetZhihuHot | src/api/zhihu.ts:36-53 | the call's outcome and the new cache are exactly the Hot step |
| V2ex.NodeName | src/api/v2ex.ts:36 | the node's title when present and non-empty, otherwise 'V2EX' |
| V2ex.ShapeTopics | src/api/v2ex.ts:32-37 | the first min(10, n) topics in order, title, url and replies copied, node named |
| V2ex.FetchV2exHot | src/api/v2ex.ts:14-66 | primary answer shaped; else backup answer shaped; else the two-entry notice; never more than 10 topics |
| V2ex.FallbackNeverCached | src/api/v2ex.ts:80 | the notice is not cacheable |
| V2ex.CacheableAnswer | src/api/v2ex.ts:80 | a host's answer is cached exactly when it has a topic and the first is not titled like the notice |
| V2ex.CachedTopics | src/api/v2ex.ts:70-76 | a list exactly when a live entry under `v2exHot` holds one, and then that list |
| V2ex.Hot | src/api/v2ex.ts:68-85 | getV2exHot as one step: only `v2exHot` may be written, and the call rejects only when a cache write is rejected |
| V2ex.HotServesLiveCache | src/api/v2ex.ts:70-76 | unforced, with a live entry and a cache read that succeeds: the cached list is answered whatever either host says, cache unchanged |
| V2ex.HotFailedReadFetches | src/utils/storage.ts:86-88 | a cache read that throws makes the call behave exactly like a forced refresh |
| V2ex.HotCachesOnlyCacheable | src/api/v2ex.ts:78-85 | with no live entry, a cache read that throws, or `force`: the fetched list is answered (or the call rejects when caching fails); only a cacheable list is stored; with both hosts down the notice is answered and nothing is stored |
| V2ex.HotReadBack | src/api/v2ex.ts:68-85 | a list fetched and cached is answered by any later unforced call within thirty minutes |
| V2ex.HotFrame | src/api/v2ex.ts:68-85 | no other cache key changes |
| V2ex.GetV2exHot | src/api/v2ex.ts:68-85 | the call's outcome and the new cache are exactly the Hot step |
| Weather.GetWeatherInfo | src/api/weather.ts:93-116 | total: the table's entry for a listed code, the unknown marker 未知/❓ for any other |
| Weather.KnownCodes | src/api/weather.ts:94-113 | the table lists exactly the eighteen codes 0, 1, 2, 3, 45, 48, 51, 53, 55, 61, 63, 65, 71, 73, 75, 95, 96, 99 |
| Weather.UnknownExactlyOutsideTable | src/api/weather.ts:93-116 | the unknown marker comes back exactly for codes outside the table; every answer has a text and an icon |
| Weather.WeatherExamples | src/api/weather.ts:94-115 | 0 gives 晴朗/☀️, 95 gives 雷雨/⛈️, 4 gives the unknown marker |
| Weather.ShapePlace | src/api/weather.ts:23-29 | name, latitude and longitude copied; region is `admin1` or ''; country is `country` or '' |
| Weather.SearchLocation | src/api/weather.ts:7-34 | with `results` present, one shaped place per result in order; no `results` or any failure gives the empty list |
| Constants.Find | src/utils/constants.ts:64 | `find` by id: the first entry with that id; none exactly when no entry has it |
| Constants.Lookup | src/utils/constants.ts:64 | the found entry, which has the id, or the table's first entry |
| Constants.BuildSearchUrl | src/utils/constants.ts:63-66 | the template of the first engine with the id, or of the first engine when none has it, filled with the encoded query |
| Constants.BuildAIUrl | src/utils/constants.ts:68-71 | the template of the first platform with the id, or of the first platform when none has it, filled with the encoded query |
| Constants.IdsDistinct | src/utils/constants.ts:3-61 | within each table no two entries share an id |
| Constants.SearchTemplate | src/utils/constants.ts:3-28 | every search template is text without `{` followed by `{query}` |
| Constants.AITemplate | src/utils/constants.ts:30-61 | every AI template is text without `{` followed by `{query}` |
| Constants.ExactlyOnePlaceholder | src/utils/constants.ts:3-61 | such a template holds `{query}` exactly once, at its end, where `indexOf` finds it |
| Constants.BuildUrlShape | src/utils/constants.ts:65 | the filled template is its text before `{query}` followed by the encoded query; for the empty query the template with `{query}` deleted; the query decodes back from it; the result never contains `{query}` |
| Constants.BuildSearchUrlChoice | src/utils/constants.ts:63-66 | buildSearchUrl fills the template of the engine with the id, or Baidu's (https://www.baidu.com/s?wd=) for an unknown id |
| Constants.BuildAIUrlChoice | src/utils/constants.ts:68-71 | buildAIUrl fills the template of the platform with the id, or Tongyi Qianwen's for an unknown id |
| HotList.Settle | src/stores/hotlist.ts:29-37 | a rejection, or an empty unforced answer, keeps the list and sets '获取失败，请稍后重试'; any other answer replaces the list and leaves the error empty |
| HotList.SettleErrorExactlyOnFailure | src/stores/hotlist.ts:29-37 | the error is empty or the failure text; it is empty exactly when the answer replaced the list |
| HotList.ForcedEmptyClears | src/stores/hotlist.ts:31-35 | a forced empty answer empties the list without error; an unforced one keeps it and reports failure |
| HotList.V2exNoticeShownWithoutError | src/stores/hotlist.ts:63-81 | with both V2EX hosts down the notice becomes the V2EX list and no error is shown |
| HotList.CacheKeysDisjoint | src/api/github.ts:53 | the GitHub period keys, `zhihuHot`, `v2exHot` and `bingWallpaper` are pairwise different |
| HotList.HotListStore.constructor | src/stores/hotlist.ts:9-21 | empty lists, nothing loading, no errors |
| HotList.HotListStore.Begin | src/stores/hotlist.ts:24-27 | refused (nothing changes) while the feed is loading; otherwise that feed is marked loading and its error cleared, other feeds untouched |
| HotList.HotListStore.LoadGitHubTrending | src/stores/hotlist.ts:23-41 | refused while loading; otherwise the cache takes the adapter's step, the list and error are Settle of its outcome, the loading flags end as before; other feeds' slots unchanged |
| HotList.HotListStore.LoadZhihuHot | src/stores/hotlist.ts:43-61 | the same over the Zhihu slots |
| HotList.HotListStore.LoadV2exHot | src/stores/hotlist.ts:63-81 | the same over the V2EX slots |
| UserSettings.InitialIsStorageDefault | src/stores/settings.ts:8-15 | the store's initial settings equal the storage defaults |
| UserSettings.CurrentWallpaper | src/stores/settings.ts:21-26 | the user's image when the type is custom and the image is non-empty; otherwise the Bing image's address, or '' |
| UserSettings.CustomWallpaperSurvivesReload | src/stores/settings.ts:57-62 | a non-empty image set by the user is still the wallpaper shown after settings and image are read back |
| UserSettings.BingTypeShowsBing | src/stores/settings.ts:21-26 | with the Bing type the user's image is never shown |
| UserSettings.SettingsStore.constructor | src/stores/settings.ts:8-19 | initial settings, no images, light mode |
| UserSettings.SettingsStore.LoadBingWallpaper | src/stores/settings.ts:40-42 | the image becomes getWallpaper's answer; on a rejection it stays |
| UserSettings.SettingsStore.SaveSettings | src/stores/settings.ts:44-46 | the storage holds every key of the settings |
| UserSettings.SettingsStore.LoadSettings | src/stores/settings.ts:28-38 | settings become the saved ones over the old ones (equal to getSettings' answer); the Bing image is loaded exactly when the type is Bing; then the user's image and the dark flag are read, unless the Bing step rejected |
| UserSettings.SettingsStore.SetWallpaperType | src/stores/settings.ts:48-55 | only the type changes and is saved; the Bing image is reloaded exactly when the type is Bing |
| UserSettings.SettingsStore.SetCustomWallpaper | src/stores/settings.ts:57-62 | the image is kept and stored, the type becomes custom and is saved; a non-empty image is then the wallpaper shown |
| UserSettings.SettingsStore.SetSearchEngine | src/stores/settings.ts:64-67 | only the search engine changes, and the settings are saved |
| UserSettings.SettingsStore.SetLanguage | src/stores/settings.ts:69-72 | only the language changes, and the settings are saved |
| UserSettings.SettingsStore.CheckDarkMode | src/stores/settings.ts:74-81 | the dark flag follows the system preference |
| UserSettings.SettingsStore.ToggleClock | src/stores/settings.ts:83-86 | only showClock changes (to the given value), and the settings are saved |
| UserSettings.SettingsStore.ToggleDate | src/stores/settings.ts:88-91 | only showDate changes (to the given value), and the settings are saved |

## Left out

- Network, browser storage, geolocation, `matchMedia` and the console are I/O. Fetches are
  parsed-body-or-failure inputs, the clock is a `now` argument, and storage is an object
  with one field per key.
- HTTP headers, cache-busting query strings and the `response.ok` checks are left out. All
  of them end in the same handler, so each fetch is one success-or-failure input.
- Each call reads the clock once. The cache read and the cache write of one call use the
  same `now`.
- Writes to the synced partition (settings, layout) always succeed in the model. Among the
  writes, only cache writes may be rejected. The fire-and-forget saves in the setters, `resetLayout` and
  `stopEditing` are treated as finished when the call returns.
- Concurrency is left out: `loadAll` (`Promise.all`), the unawaited `refreshAll`, and any
  interleaving of async loads. Loads run one at a time, and the loading flag is checked on
  entry.
- `gridWidth`, `containerWidth` and `setContainerWidth` are floating-point layout arithmetic
  and are not modelled. Opacity, latitude and longitude are `real` values that are only
  copied.
- `getWeatherByLocation` (rounding and `toFixed` on floats) and `getCurrentLocation` (the
  geolocation callback) are not modelled.
- The search query date in `fetchGitHubTrending` is not modelled. It comes from local-time
  `setDate`/`setMonth` and then UTC `toISOString`, so it is treated as part of the request.
- The `prefers-color-scheme` change listener is not modelled. Only the value read on load is.
- Object aliasing is not modelled; the model uses value semantics. In the source, merging
  with nothing saved changes the storage helper's default widget objects in place. The
  layout store's initial state also shares objects with its default. `resetLayout`'s deep
  copy is plain assignment here.
- JSON values of unexpected types are not modelled (a number where text is expected, a
  `widgets` value that is neither an array nor absent, and so on). A cached entry of another
  shape than the reader expects counts as a miss. This cannot happen, because each key is
  written by one adapter only.
- Strings are sequences of Unicode scalar values. The `URIError` that `encodeURIComponent`
  throws on a lone UTF-16 surrogate cannot arise in the model.
- Zhihu's `target.id` is kept as the text it prints as.
