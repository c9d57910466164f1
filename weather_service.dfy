/**
 * The regional weather widget's data source (services/weatherService.ts):
 * a fixed table of eight cities, a fallback record for unknown cities and
 * failed requests, and the mapping from WMO weather codes to a Korean
 * description and an icon. The HTTP request is an outcome given to the
 * model, already reduced to the rounded temperature and the weather code.
 */
module WeatherService {
  import opened Strings

  /** A city's latitude and longitude. */
  datatype Coords = Coords(lat: real, lon: real)

  const REGION_COORDINATES: map<string, Coords> := map[
    "서울" := Coords(37.5665, 126.9780),
    "부산" := Coords(35.1796, 129.0756),
    "대구" := Coords(35.8714, 128.6014),
    "인천" := Coords(37.4563, 126.7052),
    "광주" := Coords(35.1595, 126.8526),
    "대전" := Coords(36.3504, 127.3845),
    "울산" := Coords(35.5384, 129.3114),
    "제주" := Coords(33.4996, 126.5312)
  ]

  /** `REGIONS`: the table's keys in declaration order. */
  const REGIONS: seq<string> := ["서울", "부산", "대구", "인천", "광주", "대전", "울산", "제주"]

  /** No city is listed twice. */
  lemma RegionsDistinct()
    ensures forall i, j :: 0 <= i < j < |REGIONS| ==> REGIONS[i] != REGIONS[j]
  {
  }

  /** REGIONS lists every city of the table and nothing else, as many
      entries as the table has. */
  lemma RegionsAreTableKeys()
    ensures forall c :: c in REGIONS <==> c in REGION_COORDINATES
    ensures |REGIONS| == |REGION_COORDINATES| == 8
  {
    TableKeys();
    TableSize();
  }

  lemma TableKeys()
    ensures REGION_COORDINATES.Keys == {"서울", "부산", "대구", "인천", "광주", "대전", "울산", "제주"}
  {
  }

  /** The table holds eight distinct cities. */
  lemma TableSize()
    ensures |REGION_COORDINATES| == 8
  {
    TableKeys();
    assert |REGION_COORDINATES.Keys| == 8;
  }

  datatype WeatherData = WeatherData(city: string, temp: string, description: string, icon: string)

  datatype Sky = Sky(description: string, icon: string)

  const CLEAR: Sky := Sky("맑음", "☀️")
  const CLOUDY: Sky := Sky("흐림", "☁️")
  const RAIN: Sky := Sky("비", "🌧️")
  const SNOW: Sky := Sky("눈", "❄️")

  const CLOUDY_CODES: set<int> := {1, 2, 3, 45, 48}
  const RAIN_CODES: set<int> := {51, 53, 55, 61, 63, 65, 80, 81, 82}
  const SNOW_CODES: set<int> := {71, 73, 75}

  /** The icon that goes with each description. */
  function IconFor(description: string): string
  {
    if description == "맑음" then "☀️"
    else if description == "비" then "🌧️"
    else if description == "눈" then "❄️"
    else "☁️"
  }

  /** `mapWeatherCode`: clear for 0, rain and snow for their codes, cloudy
      for the cloud codes and for every code it does not know. */
  function MapWeatherCode(code: int): (sky: Sky)
    ensures sky == CLEAR <==> code == 0
    ensures sky == RAIN <==> code in RAIN_CODES
    ensures sky == SNOW <==> code in SNOW_CODES
    ensures sky == CLOUDY <==> code != 0 && code !in RAIN_CODES && code !in SNOW_CODES
    ensures sky.icon == IconFor(sky.description)
  {
    if code == 0 then CLEAR
    else if code in CLOUDY_CODES then CLOUDY
    else if code in RAIN_CODES then RAIN
    else if code in SNOW_CODES then SNOW
    else CLOUDY
  }

  /** `getFallbackWeather`. */
  function FallbackWeather(city: string): (w: WeatherData)
    ensures w.city == city && w.temp == "—" && w.description == "정보 없음" && w.icon == "🌡️"
  {
    WeatherData(city, "—", "정보 없음", "🌡️")
  }

  /** The decimal rendering of an integer, with a leading `-` when negative. */
  function IntToString(n: int): (s: string)
    ensures n >= 0 ==> s == NatToString(n)
    ensures n < 0 ==> s == "-" + NatToString(-n)
  {
    if n >= 0 then NatToString(n) else "-" + NatToString(-n)
  }

  /** The forecast request's outcome: a failure (network, status or parse),
      or the current temperature (already rounded) and weather code. */
  datatype Forecast = RequestFailed | Current(roundedTemp: int, weatherCode: int)

  /** `fetchWeatherByCity`. */
  function FetchWeatherByCity(city: string, forecast: Forecast): (w: WeatherData)
    ensures w.city == city
    ensures city !in REGION_COORDINATES || forecast.RequestFailed? ==> w == FallbackWeather(city)
    ensures city in REGION_COORDINATES && forecast.Current? ==>
              w.temp == IntToString(forecast.roundedTemp) &&
              Sky(w.description, w.icon) == MapWeatherCode(forecast.weatherCode)
  {
    if city !in REGION_COORDINATES then FallbackWeather(city)
    else match forecast
      case RequestFailed => FallbackWeather(city)
      case Current(t, code) =>
        var sky := MapWeatherCode(code);
        WeatherData(city, IntToString(t), sky.description, sky.icon)
  }

  /** A city outside the region table gets the fallback whatever the
      request would answer. The table is a map here; in JavaScript a name
      inherited by every object, such as `toString`, also finds a truthy
      entry, and for it a request is made (see the README). */
  lemma UnknownCityNeedsNoRequest(city: string, f1: Forecast, f2: Forecast)
    requires city !in REGION_COORDINATES
    ensures FetchWeatherByCity(city, f1) == FetchWeatherByCity(city, f2) == FallbackWeather(city)
  {
  }

  /** A real reading is never mistaken for the fallback: its temperature is
      a number, not the dash. */
  lemma ReadingIsNotFallback(city: string, t: int, code: int)
    requires city in REGION_COORDINATES
    ensures FetchWeatherByCity(city, Current(t, code)) != FallbackWeather(city)
  {
    var s := IntToString(t);
    assert s[0] == '-' || '0' <= s[0] <= '9';
    assert "—"[0] == '—';
  }
}
