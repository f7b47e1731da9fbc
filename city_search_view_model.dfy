/** `CitySearchViewModel`: the state of the city-search field. A search is a
    start step (loading) followed by a completion step with the use case's
    answer; the search use case delegates to `CitySearchRemote.SearchCities`. */
module CitySearchUi {
  import opened Common
  import opened Text
  import opened CitySearchDto
  import CitySearchRemote

  datatype SearchState = SearchState(cities: seq<CitySearchResponse>, isLoading: bool, error: Option<string>)

  /** `SearchState()`: no cities, not loading, no error. */
  function DefaultSearchState(): SearchState {
    SearchState([], false, None)
  }

  const SearchErrorFallback := "Erreur de recherche"
  const UnexpectedErrorFallback := "Erreur inattendue"

  /** The screen never shows a result list and an error together. */
  predicate Consistent(s: SearchState) {
    s.cities == [] || s.error.None?
  }

  /** The start of a search: loading, the error cleared, the old cities kept. */
  function SearchStarted(s: SearchState): (r: SearchState)
    ensures Consistent(r) && r.isLoading && r.error.None? && r.cities == s.cities
  {
    s.(isLoading := true, error := None)
  }

  /** The end of a search: the found cities and no error on success; no
      cities and the failure's message (or a fallback) otherwise. */
  function SearchCompleted(s: SearchState, outcome: Outcome<Result<seq<CitySearchResponse>>>): (r: SearchState)
    ensures Consistent(r) && !r.isLoading
    ensures r.error.None? <==> outcome.Returned? && outcome.value.Success?
    ensures r.error.None? ==> r.cities == outcome.value.value
    ensures outcome.Returned? && outcome.value.Failure? ==>
              r.error == Some(MessageOr(outcome.value.error, SearchErrorFallback))
    ensures outcome.Raised? ==> r.error == Some(MessageOr(outcome.exception, UnexpectedErrorFallback))
  {
    match outcome
    case Returned(Success(cities)) => s.(cities := cities, isLoading := false, error := None)
    case Returned(Failure(e)) =>
      s.(cities := [], isLoading := false, error := Some(MessageOr(e, SearchErrorFallback)))
    case Raised(e) =>
      s.(cities := [], isLoading := false, error := Some(MessageOr(e, UnexpectedErrorFallback)))
  }

  class CitySearchViewModel {
    var state: SearchState

    ghost predicate Valid()
      reads this
    {
      Consistent(state)
    }

    constructor ()
      ensures Valid() && state == DefaultSearchState()
    {
      state := DefaultSearchState();
    }

    /** `searchCities` up to its launch: a query under two characters resets
        the state and asks nothing; otherwise the search starts. */
    method SearchCities(query: string) returns (launched: bool)
      requires Valid()
      modifies this
      ensures Valid()
      ensures launched <==> |query| >= 2
      ensures state == if launched then SearchStarted(old(state)) else DefaultSearchState()
    {
      if |query| < 2 {
        ClearResults();
        return false;
      }
      state := SearchStarted(state);
      launched := true;
    }

    /** The rest of the launched search, once the use case has answered or thrown. */
    method CompleteSearch(outcome: Outcome<Result<seq<CitySearchResponse>>>)
      requires Valid()
      modifies this
      ensures Valid()
      ensures state == SearchCompleted(old(state), outcome)
    {
      state := SearchCompleted(state, outcome);
    }

    /** `clearResults`: back to `SearchState()`. */
    method ClearResults()
      modifies this
      ensures Valid()
      ensures state == DefaultSearchState()
    {
      state := DefaultSearchState();
    }
  }

  /** One user action, run to completion: a search with the use case's
      answer, or clearing the results. */
  datatype SearchAction =
    | Search(query: string, outcome: Outcome<Result<seq<CitySearchResponse>>>)
    | Clear

  /** Every action, run to completion, leaves the screen consistent and not
      loading, whatever state it started from. */
  function Step(s: SearchState, action: SearchAction): (r: SearchState)
    ensures Consistent(r) && !r.isLoading
    ensures action.Clear? ==> r == DefaultSearchState()
    ensures action.Search? && |action.query| < 2 ==> r == DefaultSearchState()
  {
    match action
    case Search(query, outcome) =>
      if |query| < 2 then DefaultSearchState() else SearchCompleted(SearchStarted(s), outcome)
    case Clear => DefaultSearchState()
  }

  function Run(s: SearchState, actions: seq<SearchAction>): SearchState
    decreases |actions|
  {
    if actions == [] then s else Run(Step(s, actions[0]), actions[1..])
  }

  /** From a consistent screen that is not loading, any sequence of actions
      ends consistent and not loading. */
  lemma {:induction false} RunSettlesConsistent(s: SearchState, actions: seq<SearchAction>)
    requires Consistent(s)
    requires !s.isLoading
    ensures Consistent(Run(s, actions)) && !Run(s, actions).isLoading
    decreases |actions|
  {
    if actions != [] {
      RunSettlesConsistent(Step(s, actions[0]), actions[1..]);
    }
  }

  /** Clearing twice is clearing once. */
  lemma ClearIdempotent(s: SearchState)
    ensures Step(Step(s, Clear), Clear) == Step(s, Clear) == DefaultSearchState()
  {
  }

  /** A blank query ends in `SearchState()` whichever guard catches it: the
      view model's length check, or the data source's blank check that
      answers with an empty success. */
  lemma BlankQueryEndsInDefaultState(s: SearchState, query: string, apiKey: string,
                                     api: CitySearchRemote.CitySearchApi)
    requires IsBlank(query)
    ensures Step(s, Search(query, Returned(CitySearchRemote.SearchCities(query, apiKey, api))))
            == DefaultSearchState()
  {
  }
}
