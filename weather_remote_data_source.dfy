/** `WeatherRemoteDataSource`: the gateway to the OpenWeatherMap weather and
    geocoding endpoints. The HTTP call itself is an input (`WeatherApi` or the
    call's outcome); what is modelled is how its answer becomes a `Result`. */
module WeatherRemote {
  import opened Common
  import opened Text
  import opened Icons

  /** One entry of the response's `weather` list. */
  datatype WeatherInfo = WeatherInfo(description: string, icon: string)

  /** The response's `main` block, with the fields the mapping reads. */
  datatype MainInfo = MainInfo(temperature: real, feelsLike: real, humidity: int, pressure: int)

  datatype Wind = Wind(speed: real)

  datatype WeatherResponse = WeatherResponse(weather: seq<WeatherInfo>, main: MainInfo, wind: Option<Wind>)

  /** The domain `Weather`, with the fields the mapping fills in. */
  datatype Weather = Weather(description: string, temperature: real, feelsLike: real,
                             humidity: int, pressure: int, windSpeed: real, iconUrl: string)

  /** One candidate of the geocoding endpoints. */
  datatype GeocodingResponse = GeocodingResponse(name: string, latitude: real, longitude: real,
                                                 country: string, state: Option<string>)

  /** The two ways the weather endpoint is asked: by city name or by position. */
  datatype WeatherQuery = ByCityName(cityName: string) | ByCoordinates(latitude: real, longitude: real)

  /** The weather endpoint as seen by the app: a query answered or a thrown exception. */
  type WeatherApi = WeatherQuery -> Outcome<Response<WeatherResponse>>

  /** The two geocoding lookups: a place name, or a position (reverse geocoding). */
  datatype GeocodingQuery = Direct(query: string) | Reverse(latitude: real, longitude: real)

  /** The geocoding endpoints as seen by the app. */
  type GeocodingApi = GeocodingQuery -> Outcome<Response<seq<GeocodingResponse>>>

  const EmptyBodyMessage := "Empty response body"

  /** Reverse-geocoding fallback when the lookup finds no place. */
  const CurrentPosition := "Position actuelle"

  /** Reverse-geocoding fallback when the lookup itself fails. */
  const MyPosition := "Ma position"

  const ApiErrorPrefix := "API Error: "

  /** `"API Error: ${code} - ${message}"`. */
  function ApiErrorMessage(code: int, message: string): (s: string)
    ensures |s| == |ApiErrorPrefix| + |IntToString(code)| + 3 + |message|
    ensures s[..|ApiErrorPrefix|] == ApiErrorPrefix
    ensures s[|s| - |message|..] == message
  {
    var text := IntToString(code) + " - " + message;
    assert (ApiErrorPrefix + text)[|ApiErrorPrefix| + |text| - |message|..] == message;
    ApiErrorPrefix + text
  }

  /** `mapToWeather`: description and icon from the first condition, the
      metrics unchanged from `main`, no wind block meaning a speed of 0.0. */
  function MapToWeather(response: WeatherResponse): (w: Weather)
    requires |response.weather| > 0
    ensures w.description == response.weather[0].description
    ensures IconCode(CurrentIconBase, w.iconUrl) == Some(response.weather[0].icon)
    ensures w.temperature == response.main.temperature && w.feelsLike == response.main.feelsLike
    ensures w.humidity == response.main.humidity && w.pressure == response.main.pressure
    ensures response.wind.None? ==> w.windSpeed == 0.0
    ensures response.wind.Some? ==> w.windSpeed == response.wind.value.speed
  {
    var first := response.weather[0];
    IconCodeOfIconUrl(CurrentIconBase, first.icon);
    Weather(first.description, response.main.temperature, response.main.feelsLike,
            response.main.humidity, response.main.pressure,
            if response.wind.Some? then response.wind.value.speed else 0.0,
            IconUrl(CurrentIconBase, first.icon))
  }

  /** Only the first condition is read: any other condition list with a
      first entry changes nothing but the description and the icon URL. */
  lemma ConditionsAffectOnlyDescriptionAndIcon(response: WeatherResponse, conditions: seq<WeatherInfo>)
    requires |response.weather| > 0 && |conditions| > 0
    ensures MapToWeather(response.(weather := conditions))
            == MapToWeather(response).(description := conditions[0].description,
                                       iconUrl := IconUrl(CurrentIconBase, conditions[0].icon))
  {
  }

  /** How `getWeatherForCity` and `getWeatherByCoordinates` turn the call into
      a `Result`: success exactly for a 2xx answer with a body that has a
      condition; otherwise the empty-body, HTTP-error, `first()` or thrown
      exception failure. */
  function WeatherResult(call: Outcome<Response<WeatherResponse>>): (r: Result<Weather>)
    ensures r.Success? <==> call.Returned? && call.value.IsSuccessful() && call.value.body.Some?
                            && |call.value.body.value.weather| > 0
    ensures r.Success? ==> r.value == MapToWeather(call.value.body.value)
    ensures call.Raised? ==> r == Failure(call.exception)
    ensures call.Returned? && !call.value.IsSuccessful() ==>
              r == Failure(Error(Some(ApiErrorMessage(call.value.code, call.value.message))))
    ensures call.Returned? && call.value.IsSuccessful() && call.value.body.None? ==>
              r == Failure(Error(Some(EmptyBodyMessage)))
    ensures call.Returned? && call.value.IsSuccessful() && call.value.body.Some?
            && call.value.body.value.weather == [] ==>
              r == Failure(Error(Some(EmptyListMessage)))
  {
    match call
    case Raised(e) => Failure(e)
    case Returned(response) =>
      if response.IsSuccessful() then
        match response.body
        case Some(body) =>
          if |body.weather| > 0 then Success(MapToWeather(body))
          else Failure(Error(Some(EmptyListMessage)))
        case None => Failure(Error(Some(EmptyBodyMessage)))
      else
        Failure(Error(Some(ApiErrorMessage(response.code, response.message))))
  }

  /** `getWeatherForCity`: the endpoint is asked with the city name as given,
      and a success is the mapping of the body it sent for that name. */
  function GetWeatherForCity(cityName: string, api: WeatherApi): (r: Result<Weather>)
    ensures r.Success? ==> var call := api(ByCityName(cityName));
                           && call.Returned? && call.value.body.Some?
                           && |call.value.body.value.weather| > 0
                           && r.value == MapToWeather(call.value.body.value)
  {
    WeatherResult(api(ByCityName(cityName)))
  }

  /** `getWeatherByCoordinates`: the endpoint is asked with the position, and
      a success is the mapping of the body it sent for that position. */
  function GetWeatherByCoordinates(latitude: real, longitude: real, api: WeatherApi): (r: Result<Weather>)
    ensures r.Success? ==> var call := api(ByCoordinates(latitude, longitude));
                           && call.Returned? && call.value.body.Some?
                           && |call.value.body.value.weather| > 0
                           && r.value == MapToWeather(call.value.body.value)
  {
    WeatherResult(api(ByCoordinates(latitude, longitude)))
  }

  /** In `text + " - " + rest` with a space-free `text`, the first space
      sits right after `text`. */
  lemma FirstSpaceAfter(text: string, rest: string)
    requires forall k | 0 <= k < |text| :: text[k] != ' '
    ensures forall k | 0 <= k < |text| :: (text + " - " + rest)[k] != ' '
    ensures (text + " - " + rest)[|text|] == ' '
  {
  }

  /** A text without spaces followed by " - " is recovered from the whole. */
  lemma SplitAtSeparator(a: string, m1: string, b: string, m2: string)
    requires forall k | 0 <= k < |a| :: a[k] != ' '
    requires forall k | 0 <= k < |b| :: b[k] != ' '
    requires a + " - " + m1 == b + " - " + m2
    ensures a == b && m1 == m2
  {
    var x := a + " - " + m1;
    FirstSpaceAfter(a, m1);
    FirstSpaceAfter(b, m2);
    assert |a| == |b|;
    assert a == x[..|a|];
    assert b == (b + " - " + m2)[..|b|];
    assert m1 == x[|a| + 3..];
    assert m2 == (b + " - " + m2)[|b| + 3..];
  }

  /** An HTTP-error failure tells the status code and message apart: two
      error answers give the same failure only if code and message agree. */
  lemma ApiErrorMessageInjective(code1: int, message1: string, code2: int, message2: string)
    requires ApiErrorMessage(code1, message1) == ApiErrorMessage(code2, message2)
    ensures code1 == code2 && message1 == message2
  {
    var a, b := IntToString(code1), IntToString(code2);
    var p := |ApiErrorPrefix|;
    var m1 := ApiErrorMessage(code1, message1);
    assert m1[p..] == a + " - " + message1;
    assert ApiErrorMessage(code2, message2)[p..] == b + " - " + message2;
    IntToStringHasNoSpace(code1);
    IntToStringHasNoSpace(code2);
    SplitAtSeparator(a, message1, b, message2);
    IntToStringInjective(code1, code2);
  }

  /** The result `searchCities` makes of the geocoding call: the body list
      unchanged on a 2xx answer with a body, otherwise a failure. */
  function SearchCitiesResult(call: Outcome<Response<seq<GeocodingResponse>>>): (r: Result<seq<GeocodingResponse>>)
    ensures r.Success? <==> call.Returned? && call.value.IsSuccessful() && call.value.body.Some?
    ensures r.Success? ==> r.value == call.value.body.value
    ensures call.Raised? ==> r == Failure(call.exception)
    ensures call.Returned? && !call.value.IsSuccessful() ==>
              r == Failure(Error(Some(ApiErrorMessage(call.value.code, call.value.message))))
    ensures call.Returned? && call.value.IsSuccessful() && call.value.body.None? ==>
              r == Failure(Error(Some(EmptyBodyMessage)))
  {
    match call
    case Raised(e) => Failure(e)
    case Returned(response) =>
      if response.IsSuccessful() then
        match response.body
        case Some(cities) => Success(cities)
        case None => Failure(Error(Some(EmptyBodyMessage)))
      else
        Failure(Error(Some(ApiErrorMessage(response.code, response.message))))
  }

  /** `searchCities`: the query is sent as given, with no guard in front. */
  function SearchCities(query: string, api: GeocodingApi): (r: Result<seq<GeocodingResponse>>)
    ensures r.Success? <==> var call := api(Direct(query));
                            call.Returned? && call.value.IsSuccessful() && call.value.body.Some?
    ensures r.Success? ==> r.value == api(Direct(query)).value.body.value
  {
    SearchCitiesResult(api(Direct(query)))
  }

  /** The place name shown for a position: the state is included when it is
      present and the country is not empty. */
  function FormatCityName(place: GeocodingResponse): (s: string)
    ensures |s| == |place.name| + 2 + |place.country|
                   + (if place.state.Some? && place.country != [] then |place.state.value| + 2 else 0)
    ensures s[..|place.name| + 2] == place.name + ", "
    ensures s[|s| - |place.country|..] == place.country
    ensures place.state.Some? && place.country != [] ==>
              s[|place.name| + 2..|place.name| + 2 + |place.state.value| + 2] == place.state.value + ", "
  {
    if place.state.Some? && place.country != [] then
      place.name + ", " + place.state.value + ", " + place.country
    else
      place.name + ", " + place.country
  }

  /** `getCityNameByCoordinates`: fails only on a 2xx answer without a body;
      an empty list gives "Position actuelle", an HTTP error or an exception
      gives "Ma position", and otherwise the first candidate is formatted. */
  function CityNameResult(call: Outcome<Response<seq<GeocodingResponse>>>): (r: Result<string>)
    ensures r.Failure? <==> call.Returned? && call.value.IsSuccessful() && call.value.body.None?
    ensures r.Failure? ==> r.error == Error(Some(EmptyBodyMessage))
    ensures call.Raised? || !call.value.IsSuccessful() ==> r == Success(MyPosition)
    ensures call.Returned? && call.value.IsSuccessful() && call.value.body == Some([]) ==>
              r == Success(CurrentPosition)
    ensures call.Returned? && call.value.IsSuccessful() && call.value.body.Some?
            && call.value.body.value != [] ==>
              r == Success(FormatCityName(call.value.body.value[0]))
  {
    match call
    case Raised(_) => Success(MyPosition)
    case Returned(response) =>
      if response.IsSuccessful() then
        match response.body
        case Some(cities) =>
          if |cities| > 0 then Success(FormatCityName(cities[0])) else Success(CurrentPosition)
        case None => Failure(Error(Some(EmptyBodyMessage)))
      else
        Success(MyPosition)
  }

  /** `getCityNameByCoordinates`: the reverse lookup for the position, which
      fails only when a 2xx answer has no body. */
  function GetCityNameByCoordinates(latitude: real, longitude: real, api: GeocodingApi): (r: Result<string>)
    ensures r.Failure? <==> var call := api(Reverse(latitude, longitude));
                            call.Returned? && call.value.IsSuccessful() && call.value.body.None?
  {
    CityNameResult(api(Reverse(latitude, longitude)))
  }

  /** A city the endpoint does not know: a 404 answer becomes a failure that
      carries the code 404. */
  lemma UnknownCityIsApiError(api: WeatherApi)
    requires api(ByCityName("InvalidCityXYZ")) == Returned(Response(404, "Not Found", None))
    ensures GetWeatherForCity("InvalidCityXYZ", api) == Failure(Error(Some("API Error: 404 - Not Found")))
  {
    NotFoundMessage();
    var call := api(ByCityName("InvalidCityXYZ"));
    assert !call.value.IsSuccessful();
    assert WeatherResult(call) == Failure(Error(Some(ApiErrorMessage(404, "Not Found"))));
  }

  /** The message a 404 "Not Found" answer is turned into. */
  lemma NotFoundMessage()
    ensures ApiErrorMessage(404, "Not Found") == "API Error: 404 - Not Found"
  {
    assert IntToString(404) == "404" by {
      assert NatToString(40) == "40" by {
        assert NatToString(4) == "4";
      }
    }
  }
}
