/** The weather helpers (src/api/weather.ts): the place search of the Open-Meteo
    geocoding service, and the table that turns a WMO weather code into a description and
    an icon. The HTTP exchange is an input (the parsed body, or a failure). */
module Weather {
  import opened Wrappers
  import opened Types
  import Ecma

  datatype WeatherInfo = WeatherInfo(description: string, icon: string)

  /** The codes the dashboard knows, with the text and icon shown for each. */
  const WeatherCodes: map<int, WeatherInfo> := map[
    0 := WeatherInfo("晴朗", "☀️"),
    1 := WeatherInfo(" mainly clear", "🌤️"),
    2 := WeatherInfo("多云", "⛅"),
    3 := WeatherInfo("阴天", "☁️"),
    45 := WeatherInfo("雾", "🌫️"),
    48 := WeatherInfo("雾凇", "🌫️"),
    51 := WeatherInfo("毛毛雨", "🌦️"),
    53 := WeatherInfo("中雨", "🌧️"),
    55 := WeatherInfo("大雨", "🌧️"),
    61 := WeatherInfo("小雨", "🌦️"),
    63 := WeatherInfo("中雨", "🌧️"),
    65 := WeatherInfo("暴雨", "⛈️"),
    71 := WeatherInfo("小雪", "🌨️"),
    73 := WeatherInfo("中雪", "❄️"),
    75 := WeatherInfo("大雪", "❄️"),
    95 := WeatherInfo("雷雨", "⛈️"),
    96 := WeatherInfo("雷雨冰雹", "⛈️"),
    99 := WeatherInfo("强雷暴", "⛈️")
  ]

  /** What an unknown code is shown as. */
  const Unknown: WeatherInfo := WeatherInfo("未知", "❓")

  /** getWeatherInfo: the table's entry for a known code, the unknown marker otherwise. */
  function GetWeatherInfo(code: int): (r: WeatherInfo)
    ensures code in WeatherCodes ==> r == WeatherCodes[code]
    ensures code !in WeatherCodes ==> r == Unknown
  {
    if code in WeatherCodes then WeatherCodes[code] else Unknown
  }

  /** The table covers exactly these eighteen codes. */
  lemma KnownCodes()
    ensures WeatherCodes.Keys == {0, 1, 2, 3, 45, 48, 51, 53, 55, 61, 63, 65, 71, 73, 75, 95, 96, 99}
  {
  }

  /** No known code is shown as unknown, so the marker appears exactly for the codes
      outside the table; and every shown entry has a text and an icon. */
  lemma UnknownExactlyOutsideTable(code: int)
    ensures GetWeatherInfo(code) == Unknown <==> code !in WeatherCodes
    ensures GetWeatherInfo(code).description != "" && GetWeatherInfo(code).icon != ""
  {
  }

  /** Two entries of the table, and a code just outside it. */
  lemma WeatherExamples()
    ensures GetWeatherInfo(0) == WeatherInfo("晴朗", "☀️")
    ensures GetWeatherInfo(95) == WeatherInfo("雷雨", "⛈️")
    ensures GetWeatherInfo(4) == Unknown
  {
  }

  /** One element of the geocoding answer's `results`; the region (`admin1`) and the
      country may be absent. */
  datatype RawPlace = RawPlace(name: string, admin1: Option<string>, country: Option<string>, latitude: real, longitude: real)

  /** The geocoding service's JSON body; `results` is `None` when it is absent. */
  datatype GeoResponse = GeoResponse(results: Option<seq<RawPlace>>)

  /** One place as the dashboard shows it: a missing region or country is empty text. */
  function ShapePlace(item: RawPlace): (r: LocationData)
    ensures r.name == item.name && r.latitude == item.latitude && r.longitude == item.longitude
    ensures r.region == Ecma.Or(item.admin1, "") && r.country == Ecma.Or(item.country, "")
  {
    LocationData(item.name, Ecma.Or(item.admin1, ""), Ecma.Or(item.country, ""), item.latitude, item.longitude)
  }

  /** searchLocation: every place the service returned, shaped and in its order; the
      empty list when the request fails or the body has no `results`. */
  function SearchLocation(response: Fetched<GeoResponse>): (r: seq<LocationData>)
    ensures response.Parsed? && response.body.results.Some? ==>
      var results := response.body.results.value;
      |r| == |results| && forall i :: 0 <= i < |r| ==> r[i] == ShapePlace(results[i])
    ensures !(response.Parsed? && response.body.results.Some?) ==> r == []
  {
    match response
    case FetchFailed => []
    case Parsed(body) =>
      match body.results
      case None => []
      case Some(results) => seq(|results|, i requires 0 <= i < |results| => ShapePlace(results[i]))
  }
}
