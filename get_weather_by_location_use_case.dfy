/** `DefaultGetWeatherByLocationUseCase`: the device position, then the
    weather at that position, each step stopping the chain when it fails.
    The location service is out of the model: its answer is an input. */
module WeatherByLocation {
  import opened Common
  import opened WeatherRemote

  datatype Location = Location(latitude: real, longitude: real)

  /** `invoke()`: a location failure or exception is the result as it is; on
      a position, the weather endpoint is asked for that position and its
      failure is passed on, its success paired with the position. */
  function GetWeatherByLocation(location: Outcome<Result<Location>>, api: WeatherApi): (r: Result<(Weather, Location)>)
    ensures location.Raised? ==> r == Failure(location.exception)
    ensures location.Returned? && location.value.Failure? ==> r == Failure(location.value.error)
    ensures location.Returned? && location.value.Success? ==>
              var here := location.value.value;
              var weather := GetWeatherByCoordinates(here.latitude, here.longitude, api);
              && (r.Success? <==> weather.Success?)
              && (r.Success? ==> r.value == (weather.value, here))
              && (r.Failure? ==> r.error == weather.error)
  {
    match location
    case Raised(e) => Failure(e)
    case Returned(Failure(e)) => Failure(e)
    case Returned(Success(here)) =>
      match GetWeatherByCoordinates(here.latitude, here.longitude, api)
      case Success(weather) => Success((weather, here))
      case Failure(e) => Failure(e)
  }

  /** Without a position the weather endpoint plays no part: any two
      endpoints give the same failure, the location's own. */
  lemma NoPositionNoWeatherCall(location: Outcome<Result<Location>>, api1: WeatherApi, api2: WeatherApi)
    requires location.Raised? || location.value.Failure?
    ensures GetWeatherByLocation(location, api1) == GetWeatherByLocation(location, api2)
    ensures GetWeatherByLocation(location, api1).Failure?
  {
  }

  /** A success always carries the position the device gave and the weather
      the endpoint sent for exactly those coordinates. */
  lemma SuccessIsWeatherAtThatPosition(location: Outcome<Result<Location>>, api: WeatherApi)
    requires GetWeatherByLocation(location, api).Success?
    ensures var (weather, here) := GetWeatherByLocation(location, api).value;
            var call := api(ByCoordinates(here.latitude, here.longitude));
            && location == Returned(Success(here))
            && call.Returned? && call.value.IsSuccessful() && call.value.body.Some?
            && |call.value.body.value.weather| > 0
            && weather == MapToWeather(call.value.body.value)
  {
  }
}
