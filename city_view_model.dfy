/** `CityViewModel`: the state of the city-list screen. Each coroutine the
    view model launches is a start step followed by a completion step with
    the use case's answer; the use cases delegate to the city store. */
module CityUi {
  import opened Common
  import opened Text
  import opened CityTable

  datatype CityUiState = CityUiState(cities: seq<City>, currentCity: Option<City>,
                                     isLoading: bool, errorMessage: Option<string>)

  /** `CityUiState()`: no cities, no current city, not loading, no error. */
  function DefaultCityUiState(): CityUiState {
    CityUiState([], None, false, None)
  }

  const LoadErrorFallback := "Erreur lors du chargement des villes"
  const CreateErrorMessage := "Erreur lors de la création de la ville"
  const DeleteErrorMessage := "Erreur lors de la suppression de la ville"

  /** An error is never shown while a request is running. */
  predicate NoErrorWhileLoading(s: CityUiState) {
    s.isLoading ==> s.errorMessage.None?
  }

  /** The start of every launch: loading, the error cleared, the rest kept. */
  function Started(s: CityUiState): (r: CityUiState)
    ensures r.isLoading && r.errorMessage.None?
    ensures r.cities == s.cities && r.currentCity == s.currentCity
  {
    s.(isLoading := true, errorMessage := None)
  }

  /** The end of `loadCities`: the list read on success; on an exception the
      list is kept and its message (or a fallback) shown. */
  function LoadCompleted(s: CityUiState, outcome: Outcome<seq<City>>): (r: CityUiState)
    ensures !r.isLoading && r.currentCity == s.currentCity
    ensures outcome.Returned? ==> r.cities == outcome.value && r.errorMessage == s.errorMessage
    ensures outcome.Raised? ==>
              r.cities == s.cities && r.errorMessage == Some(MessageOr(outcome.exception, LoadErrorFallback))
  {
    match outcome
    case Returned(cities) => s.(cities := cities, isLoading := false)
    case Raised(e) => s.(isLoading := false, errorMessage := Some(MessageOr(e, LoadErrorFallback)))
  }

  /** The end of `createCity` or `deleteCity`: success leaves the state to the
      reload that follows; `false` shows `message`, an exception its own
      message or `message`; the list is kept either way. */
  function WriteCompleted(s: CityUiState, outcome: Outcome<bool>, message: string): (r: CityUiState)
    ensures outcome == Returned(true) ==> r == s
    ensures outcome == Returned(false) ==> r == s.(isLoading := false, errorMessage := Some(message))
    ensures outcome.Raised? ==>
              r == s.(isLoading := false, errorMessage := Some(MessageOr(outcome.exception, message)))
  {
    match outcome
    case Returned(true) => s
    case Returned(false) => s.(isLoading := false, errorMessage := Some(message))
    case Raised(e) => s.(isLoading := false, errorMessage := Some(MessageOr(e, message)))
  }

  class CityViewModel {
    var state: CityUiState

    ghost predicate Valid()
      reads this
    {
      NoErrorWhileLoading(state)
    }

    /** The view model starts from `CityUiState()`, and its `init` block
        launches `loadCities` at once. */
    constructor ()
      ensures Valid() && state == Started(DefaultCityUiState())
    {
      state := Started(DefaultCityUiState());
    }

    /** `loadCities` up to the use-case call. */
    method LoadCities()
      modifies this
      ensures Valid() && state == Started(old(state))
    {
      state := Started(state);
    }

    method CompleteLoadCities(outcome: Outcome<seq<City>>)
      requires Valid()
      modifies this
      ensures Valid() && state == LoadCompleted(old(state), outcome)
    {
      state := LoadCompleted(state, outcome);
    }

    /** `createCity` up to the use-case call: a blank name changes nothing and
        asks nothing; otherwise the trimmed name is what gets created. */
    method CreateCity(cityName: string) returns (request: Option<string>)
      requires Valid()
      modifies this
      ensures Valid()
      ensures request == if IsBlank(cityName) then None else Some(Trim(cityName))
      ensures state == if IsBlank(cityName) then old(state) else Started(old(state))
    {
      if IsBlank(cityName) {
        return None;
      }
      state := Started(state);
      request := Some(Trim(cityName));
    }

    /** The rest of `createCity`: true asks for a reload (`loadCities`). */
    method CompleteCreateCity(outcome: Outcome<bool>) returns (reload: bool)
      requires Valid()
      modifies this
      ensures Valid()
      ensures reload <==> outcome == Returned(true)
      ensures state == WriteCompleted(old(state), outcome, CreateErrorMessage)
    {
      state := WriteCompleted(state, outcome, CreateErrorMessage);
      reload := outcome == Returned(true);
    }

    /** `deleteCity` up to the use-case call, which is given `city` as it is. */
    method DeleteCity(city: City) returns (request: City)
      modifies this
      ensures Valid() && request == city && state == Started(old(state))
    {
      state := Started(state);
      request := city;
    }

    /** The rest of `deleteCity`: true asks for a reload (`loadCities`). */
    method CompleteDeleteCity(outcome: Outcome<bool>) returns (reload: bool)
      requires Valid()
      modifies this
      ensures Valid()
      ensures reload <==> outcome == Returned(true)
      ensures state == WriteCompleted(old(state), outcome, DeleteErrorMessage)
    {
      state := WriteCompleted(state, outcome, DeleteErrorMessage);
      reload := outcome == Returned(true);
    }

    /** `removeCity` is `deleteCity`. */
    method RemoveCity(city: City) returns (request: City)
      modifies this
      ensures Valid() && request == city && state == Started(old(state))
    {
      request := DeleteCity(city);
    }

    /** `setCurrentCity`: only the current city changes. */
    method SetCurrentCity(city: City)
      requires Valid()
      modifies this
      ensures Valid() && state == old(state).(currentCity := Some(city))
    {
      state := state.(currentCity := Some(city));
    }

    /** `clearError`: only the error changes. */
    method ClearError()
      requires Valid()
      modifies this
      ensures Valid() && state == old(state).(errorMessage := None)
    {
      state := state.(errorMessage := None);
    }
  }

  /** One user action run to completion, with the answers of the use cases
      it calls; a successful create or delete is followed by its reload. */
  datatype CityAction =
    | Load(loaded: Outcome<seq<City>>)
    | Create(cityName: string, created: Outcome<bool>, reloaded: Outcome<seq<City>>)
    | Delete(city: City, deleted: Outcome<bool>, reloaded: Outcome<seq<City>>)
    | SetCurrent(city: City)
    | ClearError

  /** A create or delete after its start step: the reload when it succeeded. */
  function AfterWrite(s: CityUiState, outcome: Outcome<bool>, message: string,
                      reloaded: Outcome<seq<City>>): (r: CityUiState)
    ensures !r.isLoading && r.currentCity == s.currentCity
    ensures outcome == Returned(true) && reloaded.Returned? ==>
              r.cities == reloaded.value && r.errorMessage.None?
    ensures outcome != Returned(true) ==> r.cities == s.cities && r.errorMessage.Some?
  {
    var t := WriteCompleted(Started(s), outcome, message);
    if outcome == Returned(true) then LoadCompleted(Started(t), reloaded) else t
  }

  /** One action run to completion never leaves the screen loading, and only
      `SetCurrent` changes the current city. */
  function Step(s: CityUiState, action: CityAction): (r: CityUiState)
    ensures !s.isLoading ==> !r.isLoading
    ensures !action.SetCurrent? ==> r.currentCity == s.currentCity
    ensures action.SetCurrent? ==> r.currentCity == Some(action.city)
  {
    match action
    case Load(loaded) => LoadCompleted(Started(s), loaded)
    case Create(name, created, reloaded) =>
      if IsBlank(name) then s else AfterWrite(s, created, CreateErrorMessage, reloaded)
    case Delete(_, deleted, reloaded) => AfterWrite(s, deleted, DeleteErrorMessage, reloaded)
    case SetCurrent(city) => s.(currentCity := Some(city))
    case ClearError => s.(errorMessage := None)
  }

  function Run(s: CityUiState, actions: seq<CityAction>): CityUiState
    decreases |actions|
  {
    if actions == [] then s else Run(Step(s, actions[0]), actions[1..])
  }

  /** Run to completion, actions never leave the screen loading. */
  lemma {:induction false} RunSettles(s: CityUiState, actions: seq<CityAction>)
    requires !s.isLoading
    ensures !Run(s, actions).isLoading
    decreases |actions|
  {
    if actions != [] {
      RunSettles(Step(s, actions[0]), actions[1..]);
    }
  }

  /** A name created in a healthy store shows up after the reload: the list
      is the table read back, whose last row carries the trimmed name under
      a new id, and no error is shown. */
  lemma CreatedCityAppearsAfterReload(s: CityUiState, rows: seq<City>, cityName: string)
    requires WellFormed(rows) && !IsBlank(cityName)
    ensures var t := Step(s, Create(cityName, Returned(true), Returned(Insert(rows, Trim(cityName)))));
            && t.cities == Insert(rows, Trim(cityName))
            && t.cities[|rows|] == City(NextRowId(rows), Trim(cityName))
            && !t.isLoading && t.errorMessage.None?
  {
  }

  /** Deleting an id the store does not have leaves the list as it was and
      shows the deletion error. */
  lemma FailedDeleteShowsError(s: CityUiState, city: City, reloaded: Outcome<seq<City>>)
    ensures var t := Step(s, Delete(city, Returned(false), reloaded));
            && t.cities == s.cities && !t.isLoading && t.errorMessage == Some(DeleteErrorMessage)
  {
  }
}
