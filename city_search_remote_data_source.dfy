/** `DefaultCitySearchRemoteDataSource`: city search against the geocoding
    endpoint, with the short-query guard in front of the call. */
module CitySearchRemote {
  import opened Common
  import opened Text
  import opened CitySearchDto

  /** The parameters of the `geo/1.0/direct` request. */
  datatype SearchRequest = SearchRequest(query: string, limit: int, apiKey: string)

  /** The search endpoint as seen by the data source: an answer or a thrown exception. */
  type CitySearchApi = SearchRequest -> Outcome<Response<seq<CitySearchResponse>>>

  const SearchLimit := 5

  const SearchErrorPrefix := "Erreur de recherche: "

  /** The guard: a blank query, or one under two characters before trimming. */
  predicate IsShortQuery(query: string) {
    IsBlank(query) || |query| < 2
  }

  /** The request the data source sends for `query`, or none for a short query:
      the trimmed query, the limit 5 and the key it was built with. */
  function SearchRequestFor(query: string, apiKey: string): (r: Option<SearchRequest>)
    ensures r.None? <==> IsShortQuery(query)
    ensures r.Some? ==> r.value.query == Trim(query) && r.value.limit == SearchLimit
                        && r.value.apiKey == apiKey
    ensures r.Some? ==> r.value.query != [] && !IsWhitespace(r.value.query[0])
  {
    if IsShortQuery(query) then None else Some(SearchRequest(Trim(query), SearchLimit, apiKey))
  }

  /** What the data source makes of an answer: the body (an empty list when it
      is null) on a 2xx answer, "Erreur de recherche: <code>" otherwise, and
      the exception itself when the call throws. */
  function SearchResult(call: Outcome<Response<seq<CitySearchResponse>>>): (r: Result<seq<CitySearchResponse>>)
    ensures r.Success? <==> call.Returned? && call.value.IsSuccessful()
    ensures r.Success? && call.value.body.Some? ==> r.value == call.value.body.value
    ensures r.Success? && call.value.body.None? ==> r.value == []
    ensures call.Raised? ==> r == Failure(call.exception)
    ensures call.Returned? && !call.value.IsSuccessful() ==>
              r == Failure(Error(Some(SearchErrorPrefix + IntToString(call.value.code))))
  {
    match call
    case Raised(e) => Failure(e)
    case Returned(response) =>
      if response.IsSuccessful() then
        match response.body
        case Some(cities) => Success(cities)
        case None => Success([])
      else
        Failure(Error(Some(SearchErrorPrefix + IntToString(response.code))))
  }

  /** `searchCities`: a short query succeeds with no cities and never reaches
      the endpoint; any other query is answered from the one request sent. */
  function SearchCities(query: string, apiKey: string, api: CitySearchApi): (r: Result<seq<CitySearchResponse>>)
    ensures IsShortQuery(query) ==> r == Success([])
    ensures !IsShortQuery(query) ==>
              r == SearchResult(api(SearchRequest(Trim(query), SearchLimit, apiKey)))
  {
    match SearchRequestFor(query, apiKey)
    case None => Success([])
    case Some(request) => SearchResult(api(request))
  }

  /** The guard looks at the untrimmed query, so a one-letter query padded
      with a space passes it and is sent as a single character. */
  lemma PaddedOneLetterQueryIsSent(apiKey: string)
    ensures SearchRequestFor(" a", apiKey) == Some(SearchRequest("a", SearchLimit, apiKey))
  {
    assert !IsWhitespace('a');
    assert !IsBlank(" a") by { assert " a"[1] == 'a'; }
    assert LeadingWhitespace("a") == 0;
    assert LeadingWhitespace(" a") == 1 by { assert " a"[1..] == "a"; }
    assert TrailingWhitespace(" a") == 0;
    assert " a"[1..2] == "a";
  }

  /** Searching "Lon" against an endpoint that knows London: the one entry
      comes back unchanged and is shown as "London, GB". */
  lemma LondonIsFound(apiKey: string, api: CitySearchApi, london: CitySearchResponse)
    requires london == CitySearchResponse("London", 51.5073, -0.1276, "GB", None)
    requires api(SearchRequest("Lon", SearchLimit, apiKey)) == Returned(Response(200, "OK", Some([london])))
    ensures SearchCities("Lon", apiKey, api) == Success([london])
    ensures GetDisplayName(london) == "London, GB"
  {
    assert !IsWhitespace('L');
    assert !IsBlank("Lon") by { assert "Lon"[0] == 'L'; }
    assert LeadingWhitespace("Lon") == 0;
    assert !IsWhitespace('n');
    assert TrailingWhitespace("Lon") == 0;
    assert "Lon"[0..3] == "Lon";
  }
}
