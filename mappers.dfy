/** `mapOpenWeatherDataToWeather` of the current app (package
    `com.myapp.climatscope.openweathermap`) and the OpenWeatherMap payload it reads. */
module OpenWeatherMappers {
  import opened Common
  import opened Icons

  /** One entry of the payload's `weather` list. */
  datatype WeatherData = WeatherData(id: Option<int>, main: Option<string>, description: string, icon: string)

  /** The payload's `main` block. */
  datatype MainData = MainData(temperature: real, pressure: int, humidity: int,
                               tempMin: Option<real>, tempMax: Option<real>)

  datatype WeatherWrapper = WeatherWrapper(weather: seq<WeatherData>, main: MainData)

  /** The `Weather` shown by the fragment screens. */
  datatype Weather = Weather(description: string, temperature: real, humidity: int,
                             pressure: int, iconUrl: string)

  /** The weather mapped from a payload whose condition list is non-empty,
      with its icon URL under `base`. */
  function MapWith(base: string, w: WeatherWrapper): (r: Weather)
    requires |w.weather| > 0
    ensures r.description == w.weather[0].description
    ensures IconCode(base, r.iconUrl) == Some(w.weather[0].icon)
    ensures r.temperature == w.main.temperature
    ensures r.humidity == w.main.humidity && r.pressure == w.main.pressure
  {
    var first := w.weather[0];
    IconCodeOfIconUrl(base, first.icon);
    Weather(first.description, w.main.temperature, w.main.humidity, w.main.pressure,
            IconUrl(base, first.icon))
  }

  /** Description and icon (under `img/wn/`) come from the first condition,
      the metrics from `main`; on an empty condition list `first()` throws. */
  function MapOpenWeatherDataToWeather(w: WeatherWrapper): (r: Outcome<Weather>)
    ensures r.Raised? <==> w.weather == []
    ensures r.Raised? ==> r.exception == Error(Some(EmptyListMessage))
    ensures r.Returned? ==> && r.value.description == w.weather[0].description
                            && IconCode(CurrentIconBase, r.value.iconUrl) == Some(w.weather[0].icon)
                            && r.value.temperature == w.main.temperature
                            && r.value.humidity == w.main.humidity
                            && r.value.pressure == w.main.pressure
  {
    if w.weather == [] then Raised(Error(Some(EmptyListMessage)))
    else Returned(MapWith(CurrentIconBase, w))
  }

  /** Conditions after the first one have no effect on the mapped weather. */
  lemma OnlyFirstConditionCounts(w: WeatherWrapper, later: seq<WeatherData>)
    requires |w.weather| > 0
    ensures MapOpenWeatherDataToWeather(w.(weather := [w.weather[0]] + later))
            == MapOpenWeatherDataToWeather(w)
  {
  }
}
