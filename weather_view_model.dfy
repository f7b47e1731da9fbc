/** `WeatherViewModel`: the state of the weather screen for one city. A load
    is a start step followed by a completion step with the weather use
    case's answer. */
module WeatherUi {
  import opened Common
  import opened Text
  import opened WeatherRemote

  datatype WeatherUiState = WeatherUiState(weather: Option<Weather>, cityName: string,
                                           isLoading: bool, errorMessage: Option<string>)

  /** `WeatherUiState()`: no weather, an empty city name, not loading, no error. */
  function DefaultWeatherUiState(): WeatherUiState {
    WeatherUiState(None, "", false, None)
  }

  const WeatherErrorFallback := "Erreur lors du chargement de la météo"

  /** An error is never shown while a request is running. */
  predicate NoErrorWhileLoading(s: WeatherUiState) {
    s.isLoading ==> s.errorMessage.None?
  }

  /** Weather, an error or a running load always belong to a city with a
      non-blank name. */
  predicate BelongsToCity(s: WeatherUiState) {
    s.weather.Some? || s.errorMessage.Some? || s.isLoading ==> !IsBlank(s.cityName)
  }

  /** The start of a load: loading, the error cleared, the new city name set,
      the previous weather still shown. */
  function LoadStarted(s: WeatherUiState, cityName: string): (r: WeatherUiState)
    ensures r.isLoading && r.errorMessage.None? && NoErrorWhileLoading(r)
    ensures r.cityName == cityName && r.weather == s.weather
  {
    s.(isLoading := true, errorMessage := None, cityName := cityName)
  }

  /** The end of a load: the weather on success; on a failure or an exception
      its message (or a fallback), with the previous weather kept. */
  function LoadCompleted(s: WeatherUiState, outcome: Outcome<Result<Weather>>): (r: WeatherUiState)
    ensures !r.isLoading && r.cityName == s.cityName
    ensures outcome.Returned? && outcome.value.Success? ==>
              r.weather == Some(outcome.value.value) && r.errorMessage == s.errorMessage
    ensures outcome.Returned? && outcome.value.Failure? ==>
              r.weather == s.weather && r.errorMessage == Some(MessageOr(outcome.value.error, WeatherErrorFallback))
    ensures outcome.Raised? ==>
              r.weather == s.weather && r.errorMessage == Some(MessageOr(outcome.exception, WeatherErrorFallback))
  {
    match outcome
    case Returned(Success(weather)) => s.(weather := Some(weather), isLoading := false)
    case Returned(Failure(e)) => s.(isLoading := false, errorMessage := Some(MessageOr(e, WeatherErrorFallback)))
    case Raised(e) => s.(isLoading := false, errorMessage := Some(MessageOr(e, WeatherErrorFallback)))
  }

  class WeatherViewModel {
    var state: WeatherUiState

    ghost predicate Valid()
      reads this
    {
      NoErrorWhileLoading(state)
    }

    constructor ()
      ensures Valid() && state == DefaultWeatherUiState()
    {
      state := DefaultWeatherUiState();
    }

    /** `loadWeatherForCity` up to the use-case call: a blank name changes
        nothing and asks nothing. */
    method LoadWeatherForCity(cityName: string) returns (launched: bool)
      requires Valid()
      modifies this
      ensures Valid() && (old(BelongsToCity(state)) ==> BelongsToCity(state))
      ensures launched <==> !IsBlank(cityName)
      ensures state == if launched then LoadStarted(old(state), cityName) else old(state)
    {
      if IsBlank(cityName) {
        return false;
      }
      state := LoadStarted(state, cityName);
      launched := true;
    }

    /** The rest of the launched load, once the use case has answered or thrown. */
    method CompleteLoadWeather(outcome: Outcome<Result<Weather>>)
      requires Valid()
      modifies this
      ensures Valid()
      ensures old(state.isLoading && BelongsToCity(state)) ==> BelongsToCity(state)
      ensures state == LoadCompleted(old(state), outcome)
    {
      state := LoadCompleted(state, outcome);
    }

    /** `refreshWeather`: the load again for the city name in the state, when
        it is not blank. */
    method RefreshWeather() returns (launched: bool)
      requires Valid()
      modifies this
      ensures Valid() && (old(BelongsToCity(state)) ==> BelongsToCity(state))
      ensures launched <==> !IsBlank(old(state).cityName)
      ensures state == if launched then LoadStarted(old(state), old(state).cityName) else old(state)
    {
      launched := LoadWeatherForCity(state.cityName);
    }

    /** `clearWeather`: back to `WeatherUiState()`. */
    method ClearWeather()
      modifies this
      ensures Valid() && BelongsToCity(state) && state == DefaultWeatherUiState()
    {
      state := DefaultWeatherUiState();
    }

    /** `clearError`: only the error changes. */
    method ClearError()
      requires Valid()
      modifies this
      ensures Valid() && (old(BelongsToCity(state)) ==> BelongsToCity(state))
      ensures state == old(state).(errorMessage := None)
    {
      state := state.(errorMessage := None);
    }
  }

  /** One user action run to completion, with the use case's answer. */
  datatype WeatherAction =
    | Load(cityName: string, outcome: Outcome<Result<Weather>>)
    | Refresh(outcome: Outcome<Result<Weather>>)
    | ClearWeather
    | ClearError

  /** A load for `cityName`, from its guard to its completion. */
  function LoadFor(s: WeatherUiState, cityName: string, outcome: Outcome<Result<Weather>>): (r: WeatherUiState)
    ensures IsBlank(cityName) ==> r == s
    ensures !IsBlank(cityName) ==> r.cityName == cityName && !r.isLoading && BelongsToCity(r)
  {
    if IsBlank(cityName) then s else LoadCompleted(LoadStarted(s, cityName), outcome)
  }

  /** One action run to completion keeps weather and errors tied to a named
      city and leaves nothing loading. */
  function Step(s: WeatherUiState, action: WeatherAction): (r: WeatherUiState)
    ensures BelongsToCity(s) && !s.isLoading ==> BelongsToCity(r) && !r.isLoading
  {
    match action
    case Load(cityName, outcome) => LoadFor(s, cityName, outcome)
    case Refresh(outcome) => LoadFor(s, s.cityName, outcome)
    case ClearWeather => DefaultWeatherUiState()
    case ClearError => s.(errorMessage := None)
  }

  function Run(s: WeatherUiState, actions: seq<WeatherAction>): WeatherUiState
    decreases |actions|
  {
    if actions == [] then s else Run(Step(s, actions[0]), actions[1..])
  }

  /** Run to completion, actions keep the weather and errors tied to a named
      city and never leave the screen loading. */
  lemma {:induction false} RunKeepsInvariant(s: WeatherUiState, actions: seq<WeatherAction>)
    requires BelongsToCity(s) && !s.isLoading
    ensures BelongsToCity(Run(s, actions)) && !Run(s, actions).isLoading
    decreases |actions|
  {
    if actions != [] {
      RunKeepsInvariant(Step(s, actions[0]), actions[1..]);
    }
  }

  /** A failed load for another city leaves the previous city's weather on
      screen next to the new city's name and the error. */
  lemma FailedLoadKeepsStaleWeather(s: WeatherUiState, cityName: string, e: Error)
    requires !IsBlank(cityName)
    ensures var t := Step(s, Load(cityName, Returned(Failure(e))));
            && t.weather == s.weather && t.cityName == cityName
            && t.errorMessage == Some(MessageOr(e, WeatherErrorFallback))
  {
  }

  /** `clearWeather` while a load is suspended at the use-case call: the load
      then completes on the cleared state and shows the weather under an
      empty city name. */
  lemma ClearedDuringLoadShowsWeatherWithoutCity(s: WeatherUiState, cityName: string, w: Weather)
    requires !IsBlank(cityName)
    ensures var loading := LoadStarted(s, cityName);
            var t := LoadCompleted(DefaultWeatherUiState(), Returned(Success(w)));
            && BelongsToCity(loading)
            && t.weather == Some(w) && t.cityName == "" && !BelongsToCity(t)
  {
  }

  /** Refreshing a screen with a blank city name changes nothing. */
  lemma RefreshWithoutCityChangesNothing(s: WeatherUiState, outcome: Outcome<Result<Weather>>)
    requires IsBlank(s.cityName)
    ensures Step(s, Refresh(outcome)) == s
  {
  }
}
