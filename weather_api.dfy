/** The two pure helpers of the weather client: the background picture for a condition and the icon URL. */
module WeatherApi {
  import opened Wrappers
  import opened Text

  /** `weatherMap`: the picture theme for each OpenWeatherMap main condition it knows. */
  const WeatherMap: map<string, string> := map[
    "Clear" := "sunny",
    "Clouds" := "cloudy",
    "Rain" := "rain",
    "Drizzle" := "rain",
    "Thunderstorm" := "thunderstorm",
    "Snow" := "snow",
    "Mist" := "fog",
    "Fog" := "fog",
    "Haze" := "fog"
  ]

  const Themes: set<string> := {"sunny", "cloudy", "rain", "thunderstorm", "snow", "fog", "weather"}

  /** `weatherMap[weatherMain] || 'weather'` */
  function BackgroundQuery(weatherMain: string): (q: string)
    ensures weatherMain == "Clear" ==> q == "sunny"
    ensures weatherMain == "Clouds" ==> q == "cloudy"
    ensures weatherMain == "Thunderstorm" ==> q == "thunderstorm"
    ensures weatherMain == "Snow" ==> q == "snow"
    ensures weatherMain in {"Rain", "Drizzle"} ==> q == "rain"
    ensures weatherMain in {"Mist", "Fog", "Haze"} ==> q == "fog"
    ensures q == "weather" <==> weatherMain !in WeatherMap
    ensures q in Themes
  {
    match Get(WeatherMap, weatherMain)
    case Some(theme) => theme
    case None => "weather"
  }

  const BackgroundPrefix := "https://source.unsplash.com/800x600/?"
  const BackgroundSuffix := ",landscape,nature"

  /** `getWeatherBackground(weatherMain)` */
  function WeatherBackground(weatherMain: string): (url: string)
    ensures url == BackgroundPrefix + BackgroundQuery(weatherMain) + BackgroundSuffix
    ensures StartsWith(url, BackgroundPrefix)
    ensures |url| == |BackgroundPrefix| + |BackgroundQuery(weatherMain)| + |BackgroundSuffix|
  {
    BackgroundPrefix + BackgroundQuery(weatherMain) + BackgroundSuffix
  }

  /** The theme a background URL asks for. */
  function QueryOfBackground(url: string): string
    requires |url| >= |BackgroundPrefix| + |BackgroundSuffix|
  {
    url[|BackgroundPrefix|..|url| - |BackgroundSuffix|]
  }

  /** The background URL carries the theme and nothing else: it is read back exactly, and two URLs agree exactly when their themes do. */
  lemma BackgroundCarriesTheme(a: string, b: string)
    ensures QueryOfBackground(WeatherBackground(a)) == BackgroundQuery(a)
    ensures WeatherBackground(a) == WeatherBackground(b) <==> BackgroundQuery(a) == BackgroundQuery(b)
  {
    var ua, ub := WeatherBackground(a), WeatherBackground(b);
    assert ua[|BackgroundPrefix|..|ua| - |BackgroundSuffix|] == BackgroundQuery(a);
    assert ub[|BackgroundPrefix|..|ub| - |BackgroundSuffix|] == BackgroundQuery(b);
  }

  /** Rain and drizzle get the same picture; so do mist, fog and haze. */
  lemma SharedBackgrounds()
    ensures WeatherBackground("Rain") == WeatherBackground("Drizzle")
    ensures WeatherBackground("Mist") == WeatherBackground("Fog") == WeatherBackground("Haze")
  {
  }

  const IconBase := "https://openweathermap.org/img/wn/"

  /** `getWeatherIcon(iconCode, size = '2x')`; `None` is an omitted (undefined) size. */
  function WeatherIcon(iconCode: string, size: Option<string>): (url: string)
    ensures url == IconBase + iconCode + "@" + size.GetOr("2x") + ".png"
  {
    var s := match size case Some(given) => given case None => "2x";
    IconBase + iconCode + "@" + s + ".png"
  }

  /** The icon code a URL names: the text after the base, up to the '@'. */
  function IconCodeOf(url: string): Option<string> {
    if StartsWith(url, IconBase) then Some(UpToSeparator(url[|IconBase|..], '@')) else None
  }

  /** An omitted size is the double-size icon, and the icon code is read back from the URL whenever it has no '@'. */
  lemma IconUrlCarriesCode(iconCode: string, size: Option<string>)
    requires '@' !in iconCode
    ensures WeatherIcon(iconCode, None) == WeatherIcon(iconCode, Some("2x"))
    ensures IconCodeOf(WeatherIcon(iconCode, size)) == Some(iconCode)
  {
    var url := WeatherIcon(iconCode, size);
    var rest := size.GetOr("2x") + ".png";
    assert url == IconBase + (iconCode + ['@'] + rest);
    assert url[..|IconBase|] == IconBase;
    assert url[|IconBase|..] == iconCode + ['@'] + rest;
    UpToSeparatorOfJoin(iconCode, '@', rest);
  }
}
