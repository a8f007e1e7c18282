/** The weather page's search state: the city box, the blank-city guard and the request's results. */
module WeatherPage {
  import opened Wrappers
  import opened Text
  import opened Weather

  /** The current conditions the page shows. */
  datatype CurrentWeather = CurrentWeather(main: string, icon: string, temp: real)

  /** What the two weather requests produced. */
  datatype SearchOutcome = Found(current: CurrentWeather, forecast: seq<ForecastItem>) | Failed(message: string)

  class WeatherPage {
    var city: string
    var weatherData: Option<CurrentWeather>
    var forecastData: Option<seq<ForecastItem>>
    var loading: bool
    var error: string

    constructor ()
      ensures city == "" && weatherData == None && forecastData == None && !loading && error == ""
    {
      city := "";
      weatherData := None;
      forecastData := None;
      loading := false;
      error := "";
    }

    /** The city input's `onChange`. */
    method HandleCityInput(value: string)
      modifies this
      ensures city == value
      ensures weatherData == old(weatherData) && forecastData == old(forecastData)
      ensures loading == old(loading) && error == old(error)
    {
      city := value;
    }

    /**
     * `searchWeather` up to its request: a city that trims to nothing is refused with a message
     * and nothing is fetched; otherwise the city is what gets requested.
     */
    method SearchWeather() returns (request: Option<string>)
      modifies this
      ensures request.None? <==> IsBlank(old(city))
      ensures request.None? ==> error == "Please enter a city name" && loading == old(loading)
      ensures request.Some? ==> request.value == old(city) && loading && error == ""
      ensures city == old(city) && weatherData == old(weatherData) && forecastData == old(forecastData)
    {
      var name := city;
      // `!city.trim()`, which is `IsBlank(city)` by `TrimEmptyIffBlank`
      if IsBlank(name) {
        error := "Please enter a city name";
        request := None;
      } else {
        loading := true;
        error := "";
        request := Some(name);
      }
    }

    /** The end of `searchWeather`: show the results, or the error and nothing else. */
    method FinishSearch(outcome: SearchOutcome)
      modifies this
      ensures !loading && city == old(city)
      ensures outcome.Found? ==>
        weatherData == Some(outcome.current) && forecastData == Some(outcome.forecast) && error == old(error)
      ensures outcome.Failed? ==> weatherData == None && forecastData == None && error == outcome.message
    {
      match outcome {
        case Found(current, forecast) =>
          weatherData := Some(current);
          forecastData := Some(forecast);
        case Failed(message) =>
          error := message;
          weatherData := None;
          forecastData := None;
      }
      loading := false;
    }
  }
}
