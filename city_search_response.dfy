/** `CitySearchResponse`: one candidate of the city-search endpoint and the
    label the search screens show for it. */
module CitySearchDto {
  import opened Common

  datatype CitySearchResponse = CitySearchResponse(name: string, latitude: real, longitude: real,
                                                   country: string, state: Option<string>)

  /** A candidate built without a state: the field defaults to null. */
  function WithoutState(name: string, latitude: real, longitude: real, country: string): (c: CitySearchResponse)
    ensures c.state.None?
  {
    CitySearchResponse(name, latitude, longitude, country, None)
  }

  /** Whether `getDisplayName` shows the state: it is neither null nor empty. */
  predicate ShowsState(c: CitySearchResponse) {
    c.state.Some? && c.state.value != []
  }

  /** `getDisplayName`: starts with the name and ", ", ends with the country,
      and has the state and ", " in between exactly when it shows the state. */
  function GetDisplayName(c: CitySearchResponse): (s: string)
    ensures |s| == |c.name| + 2 + |c.country| + (if ShowsState(c) then |c.state.value| + 2 else 0)
    ensures s[..|c.name| + 2] == c.name + ", "
    ensures s[|s| - |c.country|..] == c.country
    ensures ShowsState(c) ==> s[|c.name| + 2..|c.name| + 2 + |c.state.value| + 2] == c.state.value + ", "
  {
    if ShowsState(c) then c.name + ", " + c.state.value + ", " + c.country
    else c.name + ", " + c.country
  }

  /** A candidate built without a state is shown as "name, country". */
  lemma DisplayNameWithoutState(name: string, latitude: real, longitude: real, country: string)
    ensures GetDisplayName(WithoutState(name, latitude, longitude, country)) == name + ", " + country
  {
  }

  /** An empty state is shown exactly like a missing one. */
  lemma EmptyStateShownAsMissing(c: CitySearchResponse)
    requires c.state == Some([])
    ensures GetDisplayName(c) == GetDisplayName(c.(state := None))
  {
  }
}
