/** The settings store (src/stores/settings.ts): the user's preferences, today's Bing
    image, the user's own wallpaper image and the dark-mode flag, with the rule that picks
    the wallpaper to show. The system's dark-mode preference is an input. */
module UserSettings {
  import opened Wrappers
  import opened Types
  import Storage
  import Bing

  /** The store's settings before anything is loaded. */
  const InitialSettings: Settings := Settings(Bing, None, "baidu", ZhCN, true, true)

  /** The store starts from the same settings the storage helper defaults to. */
  lemma InitialIsStorageDefault()
    ensures InitialSettings == Storage.DefaultSettings
  {
  }

  /** currentWallpaper: the user's own image when the wallpaper type is custom and there
      is a non-empty image; otherwise the address of today's Bing image, or the empty
      text when there is none. */
  function CurrentWallpaper(settings: Settings, customData: Option<string>, bing: Option<BingImage>): (r: string)
    ensures settings.wallpaperType == Custom && customData.Some? && customData.value != "" ==> r == customData.value
    ensures !(settings.wallpaperType == Custom && customData.Some? && customData.value != "") ==>
      r == if bing.Some? then bing.value.url else ""
  {
    if settings.wallpaperType == Custom && customData.Some? && customData.value != "" then customData.value
    else if bing.Some? then bing.value.url
    else ""
  }

  /** A non-empty image chosen by the user and written to storage is what the page shows
      after the settings and the image are read back, whatever Bing offers. */
  lemma CustomWallpaperSurvivesReload(s: Settings, dataUrl: string, bing: Option<BingImage>)
    requires dataUrl != ""
    ensures var reloaded := Storage.SettingsFrom(Storage.Stored(Storage.AllKeys(s.(wallpaperType := Custom))));
      CurrentWallpaper(reloaded, Storage.WallpaperFrom(Storage.Stored(dataUrl)), bing) == dataUrl
  {
    Storage.SettingsRoundTrip(s.(wallpaperType := Custom));
  }

  /** With the Bing wallpaper type the user's image is never shown. */
  lemma BingTypeShowsBing(s: Settings, customData: Option<string>, bing: Option<BingImage>)
    requires s.wallpaperType == Bing
    ensures CurrentWallpaper(s, customData, bing) == if bing.Some? then bing.value.url else ""
  {
  }

  class SettingsStore {
    var settings: Settings
    var bingWallpaper: Option<BingImage>
    var customWallpaperData: Option<string>
    var isDark: bool

    constructor ()
      ensures settings == InitialSettings && bingWallpaper == None && customWallpaperData == None && !isDark
    {
      settings := InitialSettings;
      bingWallpaper, customWallpaperData, isDark := None, None, false;
    }

    function Current(): string
      reads this
    {
      CurrentWallpaper(settings, customWallpaperData, bingWallpaper)
    }

    /** loadBingWallpaper: the image getWallpaper settles to; when that call rejects, the
        old image stays and the caller's promise rejects (`ok` is false). */
    method LoadBingWallpaper(storage: Storage.ChromeStorage, now: int, response: Fetched<Bing.ArchiveResponse>, readFails: bool, writeFails: bool)
      returns (ok: bool)
      modifies this`bingWallpaper, storage`cache
      ensures var step := Bing.Wallpaper(old(storage.cache), now, response, readFails, writeFails);
        && storage.cache == step.cache
        && ok == step.result.Returned?
        && bingWallpaper == if ok then step.result.value else old(bingWallpaper)
    {
      var result := Bing.GetWallpaper(storage, now, response, readFails, writeFails);
      if result.Threw? {
        return false;
      }
      bingWallpaper := result.value;
      ok := true;
    }

    /** saveSettings: every key written. */
    method SaveSettings(storage: Storage.ChromeStorage)
      modifies storage`settings
      ensures storage.settings == Storage.Stored(Storage.AllKeys(settings))
    {
      storage.SetSettings(settings);
    }

    /** loadSettings: the saved settings overlaid on the current ones (which, since
        getSettings answers a complete record, is that record); today's Bing image when
        the wallpaper type is Bing; then the user's image and the dark-mode flag. When the
        Bing step rejects, the call stops there (`ok` is false). */
    method LoadSettings(storage: Storage.ChromeStorage, now: int, response: Fetched<Bing.ArchiveResponse>,
                        readFails: bool, writeFails: bool, prefersDark: bool) returns (ok: bool)
      modifies this`settings, this`bingWallpaper, this`customWallpaperData, this`isDark, storage`cache
      ensures settings == Storage.OverlaySettings(old(settings), Storage.AllKeys(Storage.SettingsFrom(storage.settings)))
      ensures settings == Storage.SettingsFrom(storage.settings)
      ensures settings.wallpaperType != Bing ==>
        ok && storage.cache == old(storage.cache) && bingWallpaper == old(bingWallpaper)
      ensures settings.wallpaperType == Bing ==>
        var step := Bing.Wallpaper(old(storage.cache), now, response, readFails, writeFails);
        && storage.cache == step.cache
        && ok == step.result.Returned?
        && bingWallpaper == if ok then step.result.value else old(bingWallpaper)
      ensures ok ==> customWallpaperData == Storage.WallpaperFrom(storage.customWallpaper) && isDark == prefersDark
      ensures !ok ==> customWallpaperData == old(customWallpaperData) && isDark == old(isDark)
    {
      var saved := storage.GetSettings();
      settings := Storage.OverlaySettings(settings, Storage.AllKeys(saved));
      Storage.OverlaySettingsExtremes(old(settings), saved);
      ok := true;
      if settings.wallpaperType == Bing {
        ok := LoadBingWallpaper(storage, now, response, readFails, writeFails);
        if !ok {
          return;
        }
      }
      customWallpaperData := storage.GetWallpaper();
      CheckDarkMode(prefersDark);
    }

    /** setWallpaperType: the type changed and saved; with the Bing type today's image is
        loaded again. */
    method SetWallpaperType(t: WallpaperType, storage: Storage.ChromeStorage, now: int,
                            response: Fetched<Bing.ArchiveResponse>, readFails: bool, writeFails: bool) returns (ok: bool)
      modifies this`settings, this`bingWallpaper, storage`settings, storage`cache
      ensures settings == old(settings).(wallpaperType := t)
      ensures storage.settings == Storage.Stored(Storage.AllKeys(settings))
      ensures t == Custom ==> ok && bingWallpaper == old(bingWallpaper) && storage.cache == old(storage.cache)
      ensures t == Bing ==>
        var step := Bing.Wallpaper(old(storage.cache), now, response, readFails, writeFails);
        && storage.cache == step.cache
        && ok == step.result.Returned?
        && bingWallpaper == if ok then step.result.value else old(bingWallpaper)
    {
      settings := settings.(wallpaperType := t);
      SaveSettings(storage);
      ok := true;
      if t == Bing {
        ok := LoadBingWallpaper(storage, now, response, readFails, writeFails);
      }
    }

    /** setCustomWallpaper: the image kept and stored, the type switched to custom and the
        settings saved; a non-empty image is then the wallpaper shown. */
    method SetCustomWallpaper(dataUrl: string, storage: Storage.ChromeStorage)
      modifies this`customWallpaperData, this`settings, storage`customWallpaper, storage`settings
      ensures customWallpaperData == Some(dataUrl) && storage.customWallpaper == Storage.Stored(dataUrl)
      ensures settings == old(settings).(wallpaperType := Custom)
      ensures storage.settings == Storage.Stored(Storage.AllKeys(settings))
      ensures dataUrl != "" ==> Current() == dataUrl
    {
      customWallpaperData := Some(dataUrl);
      storage.SetWallpaper(dataUrl);
      settings := settings.(wallpaperType := Custom);
      SaveSettings(storage);
    }

    method SetSearchEngine(engine: string, storage: Storage.ChromeStorage)
      modifies this`settings, storage`settings
      ensures settings == old(settings).(searchEngine := engine)
      ensures storage.settings == Storage.Stored(Storage.AllKeys(settings))
    {
      settings := settings.(searchEngine := engine);
      SaveSettings(storage);
    }

    method SetLanguage(lang: Language, storage: Storage.ChromeStorage)
      modifies this`settings, storage`settings
      ensures settings == old(settings).(language := lang)
      ensures storage.settings == Storage.Stored(Storage.AllKeys(settings))
    {
      settings := settings.(language := lang);
      SaveSettings(storage);
    }

    /** checkDarkMode: the flag follows the system preference. */
    method CheckDarkMode(prefersDark: bool)
      modifies this`isDark
      ensures isDark == prefersDark
    {
      isDark := prefersDark;
    }

    /** toggleClock sets (it does not flip) whether the clock is shown. */
    method ToggleClock(show: bool, storage: Storage.ChromeStorage)
      modifies this`settings, storage`settings
      ensures settings == old(settings).(showClock := show)
      ensures storage.settings == Storage.Stored(Storage.AllKeys(settings))
    {
      settings := settings.(showClock := show);
      SaveSettings(storage);
    }

    /** toggleDate sets (it does not flip) whether the date is shown. */
    method ToggleDate(show: bool, storage: Storage.ChromeStorage)
      modifies this`settings, storage`settings
      ensures settings == old(settings).(showDate := show)
      ensures storage.settings == Storage.Stored(Storage.AllKeys(settings))
    {
      settings := settings.(showDate := show);
      SaveSettings(storage);
    }
  }
}
