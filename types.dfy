/** The records the dashboard passes around (src/types/index.ts), as values. Numbers the
    code only copies or compares as grid rows are `int`; the coordinates and the opacity,
    which the code only copies, are `real`. */
module Types {
  import opened Wrappers

  /** A movable, resizable panel on the grid. `kind` is the source's `type` field. */
  datatype Widget = Widget(id: string, kind: string, title: string, x: int, y: int, w: int, h: int, visible: bool)

  /** The saved grid: its widgets and the grid's top-level parameters. `widgetOpacity` is
      optional in the declared type, and the storage module's default leaves it out. */
  datatype LayoutConfig = LayoutConfig(widgets: seq<Widget>, gridCols: int, gridRowHeight: int, gap: int, widgetOpacity: Option<real>)

  datatype WallpaperType = Custom | Bing

  datatype Language = ZhCN | En

  /** The user's preferences. `customWallpaper` is declared and stored but never written
      by the code: the image itself lives under its own storage key. */
  datatype Settings = Settings(
    wallpaperType: WallpaperType,
    customWallpaper: Option<string>,
    searchEngine: string,
    language: Language,
    showClock: bool,
    showDate: bool)

  /** A search engine or an AI chat platform: the two tables share this shape. */
  datatype SearchEngine = SearchEngine(id: string, name: string, url: string, icon: string)

  datatype BingImage = BingImage(url: string, title: string, copyright: string)

  datatype GitHubRepo = GitHubRepo(name: string, fullName: string, description: string, stars: int, url: string, language: string)

  /** `hot` is declared as a number but the code stores the API's `detail_text` string (or
      the string "0"), so it is a string here. */
  datatype ZhihuItem = ZhihuItem(title: string, url: string, hot: string)

  datatype V2exTopic = V2exTopic(title: string, url: string, replies: int, node: string)

  datatype LocationData = LocationData(name: string, region: string, country: string, latitude: real, longitude: real)
}
