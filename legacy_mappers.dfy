/** `mapOpenWeatherDataToWeather` of the first version of the app (package
    `com.example.climatscope.openweathermap`), over the same payload. */
module LegacyOpenWeatherMappers {
  import opened Common
  import opened Icons
  import opened OpenWeatherMappers

  /** As the current mapper, but the icon URL uses the `img/w/` path. */
  function LegacyMapOpenWeatherDataToWeather(w: WeatherWrapper): (r: Outcome<Weather>)
    ensures r.Raised? <==> w.weather == []
    ensures r.Raised? ==> r.exception == Error(Some(EmptyListMessage))
    ensures r.Returned? ==> && r.value.description == w.weather[0].description
                            && IconCode(LegacyIconBase, r.value.iconUrl) == Some(w.weather[0].icon)
                            && r.value.temperature == w.main.temperature
                            && r.value.humidity == w.main.humidity
                            && r.value.pressure == w.main.pressure
  {
    if w.weather == [] then Raised(Error(Some(EmptyListMessage)))
    else Returned(MapWith(LegacyIconBase, w))
  }

  /** The two mappers fail on the same payloads and otherwise agree on every
      field except the icon URL, which always differs. */
  lemma MappersDifferOnlyInIconUrl(w: WeatherWrapper)
    ensures LegacyMapOpenWeatherDataToWeather(w).Raised? <==> MapOpenWeatherDataToWeather(w).Raised?
    ensures w.weather != [] ==>
              && LegacyMapOpenWeatherDataToWeather(w).value
                 == MapOpenWeatherDataToWeather(w).value.(iconUrl := IconUrl(LegacyIconBase, w.weather[0].icon))
              && LegacyMapOpenWeatherDataToWeather(w) != MapOpenWeatherDataToWeather(w)
  {
    if w.weather != [] {
      IconBasesNeverCollide(w.weather[0].icon, w.weather[0].icon);
    }
  }
}
