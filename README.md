# Climatscope core, modelled in Dafny

Climatscope is an Android weather app. The user keeps a list of cities and
sees the current OpenWeatherMap weather for a city or for the device's
position. This project models the parts of the app that decide something:

- **The city stores.** `CityLocalDataSource` and the older `DataBase` sit on
  the SQLite table `city(id INTEGER PRIMARY KEY, name TEXT)`. Each is a class
  whose `rows` field the methods update. The table itself (module
  `CityTable`) is a sequence of rows in rowid order. A new row gets SQLite's
  rowid: the largest id plus one, or 1 in an empty table.
- **The remote data sources.** These are `WeatherRemoteDataSource` (weather by
  city or position, city search and reverse geocoding) and
  `DefaultCitySearchRemoteDataSource`. Each turns the answer of an HTTP call
  into a Kotlin `Result`. The endpoint is a function parameter, so "no call is
  made" means the result does not depend on that parameter.
- **The DTO and mappers.** `CitySearchResponse.getDisplayName`, and the two
  `mapOpenWeatherDataToWeather` mappers: one from the current package and one
  from the first version of the app.
- **The location use case.** `DefaultGetWeatherByLocationUseCase`: the device
  position, then the weather for that position.
- **The view models.** `CityViewModel`, `WeatherViewModel` and
  `CitySearchViewModel` are classes with a `state` field. Each coroutine they
  launch is split into two methods:
  - a start method, which runs up to the use-case call;
  - a completion method, which takes the use case's answer or exception.

  Pure transition functions describe both steps. A `Run` over a sequence of
  user actions carries the invariants that hold across any session.

Kotlin's `Result`, thrown exceptions and Retrofit's `Response` are in module
`Common`. `isBlank`, `trim` and the integer rendering used in messages are in
module `Text`.

Three behaviours of the code are worth knowing before reading the model:
- `getCityNameByCoordinates` fails on a 2xx answer without a body. Every
  other answer, an HTTP error or an exception gives a name.
- `feelsLike` is copied from `main.feelsLike`. It is not derived from the
  temperature.
- `CitySearchViewModel.SearchState` declares a list of `GeocodingResponse`.
  The search use case it calls returns `CitySearchResponse`, and the model
  uses that type.

The module `CityStoreFlow` wires `CityViewModel` to `CityLocalDataSource`. A create
or delete there runs the view model's start step, the store method, the
completion step and, on success, the reload through `getAllCities`.

## Model

Paths are relative to the repository root.

| member | source | states |
|---|---|---|
| Common.MessageOr | app/src/main/java/com/myapp/climatscope/presentation/viewmodels/CityViewModel.kt:47 | `e.message ?: fallback`: the exception's message when it has one, the fallback otherwise |
| Text.IsWhitespace | app/src/main/java/com/myapp/climatscope/presentation/viewmodels/CityViewModel.kt:54 | defined as Kotlin's `Char.isWhitespace`: space, tab, line feed, carriage return, vertical tab, form feed, U+001C-U+001F, U+00A0, U+1680, U+2000-U+200A, U+2028, U+2029, U+202F, U+205F and U+3000 |
| Text.IsBlank | app/src/main/java/com/myapp/climatscope/presentation/viewmodels/CityViewModel.kt:54 | defined as `isBlank()`: every character is whitespace, so the empty string is blank |
| Text.Trim | app/src/main/java/com/myapp/climatscope/presentation/viewmodels/CityViewModel.kt:59 | the result is no longer than the input, is empty exactly when the input is blank, and neither starts nor ends with whitespace |
| Text.TrimKeepsCore | app/src/main/java/com/myapp/climatscope/data/remote/CitySearchRemoteDataSource.kt:33 | `trim()` returns a contiguous slice of its input with only whitespace cut on either side |
| Text.TrimIdempotent | app/src/main/java/com/myapp/climatscope/data/remote/CitySearchRemoteDataSource.kt:33 | trimming twice is trimming once |
| Text.NatToString | app/src/main/java/com/myapp/climatscope/data/remote/CitySearchRemoteDataSource.kt:42 | a status code is rendered as a non-empty string of decimal digits with no leading zero |
| Text.ParseNatToString | app/src/main/java/com/myapp/climatscope/data/remote/CitySearchRemoteDataSource.kt:42 | the rendered digits read back as the same number |
| Text.IntToString | app/src/main/java/com/myapp/climatscope/data/remote/WeatherRemoteDataSource.kt:23 | a negative code gets a minus sign in front of its magnitude's digits |
| Text.IntToStringInjective | app/src/main/java/com/myapp/climatscope/data/remote/WeatherRemoteDataSource.kt:23 | two different codes never render to the same text |
| CityTable.NextRowId | app/src/main/java/com/myapp/climatscope/data/local/CityLocalDataSource.kt:17-22 | the id a new row gets is positive and larger than every id in the table |
| CityTable.Insert | app/src/main/java/com/myapp/climatscope/data/local/CityLocalDataSource.kt:40-45 | inserting a name keeps the table a rowid table: positive, unique ids in ascending order |
| CityTable.InsertRowId | app/src/main/java/com/myapp/climatscope/data/local/CityLocalDataSource.kt:45-46 | `insert` answers a positive id no row has when the row is stored, -1 when refused, and the exception when one is thrown |
| CityTable.AfterInsert | app/src/main/java/com/myapp/climatscope/data/local/CityLocalDataSource.kt:38-51 | the table after any insert attempt is still a rowid table |
| CityTable.RemoveId | app/src/main/java/com/myapp/climatscope/data/local/CityLocalDataSource.kt:74-78 | a row survives `DELETE ... WHERE id = ?` exactly when its id differs from the one given |
| CityTable.RemoveIdWellFormed | app/src/main/java/com/myapp/climatscope/data/local/CityLocalDataSource.kt:74-78 | deleting by id keeps the table a rowid table |
| CityTable.RemoveIdCount | app/src/main/java/com/myapp/climatscope/data/local/CityLocalDataSource.kt:74-79 | the delete count is 1 when the id is present and 0 when it is absent |
| CityTable.RemoveIdDistributes | app/src/main/java/com/myapp/climatscope/data/local/CityLocalDataSource.kt:74-78 | the delete treats every row independently: deleting from a concatenation is the concatenation of the deletions |
| CityTable.RowsRead | app/src/main/java/com/myapp/climatscope/data/local/CityLocalDataSource.kt:56-67 | a scan reads every row unless the cursor throws; when it throws after k rows (k at most the row count), exactly k rows are read |
| CityTable.InsertAddsOneRowNamed | app/src/main/java/com/myapp/climatscope/data/local/CityLocalDataSource.kt:38-51 | an insert adds exactly one occurrence of the name to the table's names and keeps every existing row |
| CityTable.RemoveAbsentIdChangesNothing | app/src/main/java/com/myapp/climatscope/data/local/CityLocalDataSource.kt:71-84 | deleting an id no row has leaves the table as it was |
| CityTable.DeleteUndoesInsert | app/src/main/java/com/myapp/climatscope/data/local/CityLocalDataSource.kt:38-84 | the row just created is found under its new id, and deleting that id restores the table |
| LocalCityStore.CityLocalDataSource.constructor | app/src/main/java/com/myapp/climatscope/data/local/CityLocalDataSource.kt:30-32 | the table starts out empty |
| LocalCityStore.CityLocalDataSource.CreateCity | app/src/main/java/com/myapp/climatscope/data/local/CityLocalDataSource.kt:38-51 | true exactly when the row was stored, and then the table has gained the row (new rowid, the city's name, not its id); a refusal or a caught exception gives false and leaves the table unchanged |
| LocalCityStore.CityLocalDataSource.GetAllCities | app/src/main/java/com/myapp/climatscope/data/local/CityLocalDataSource.kt:53-69 | the list is the table's rows in scan order; when the cursor throws, it is the prefix read before the exception, which is swallowed |
| LocalCityStore.CityLocalDataSource.DeleteCity | app/src/main/java/com/myapp/climatscope/data/local/CityLocalDataSource.kt:71-84 | true exactly when no exception occurs and a row had the city's id; the rows with that id are then gone, and on an exception the table is unchanged |
| LegacyCityStore.LegacyCity.constructor | app/src/main/java/com/myapp/climatscope/DataBase.kt:52-55 | a legacy city holds the id and name it was built with |
| LegacyCityStore.DataBase.constructor | app/src/main/java/com/myapp/climatscope/DataBase.kt:30-32 | the table starts out empty |
| LegacyCityStore.DataBase.CreateCity | app/src/main/java/com/myapp/climatscope/DataBase.kt:37-46 | the id `insert` returned is written into `city.id` (positive and new when stored, -1 when refused) and the answer is whether it is positive; an exception escapes with `city.id` untouched |
| LegacyCityStore.DataBase.GetAllCities | app/src/main/java/com/myapp/climatscope/DataBase.kt:48-62 | one fresh city object per row, with the row's id and name and in scan order; a cursor exception escapes instead |
| LegacyCityStore.DataBase.DeleteCity | app/src/main/java/com/myapp/climatscope/DataBase.kt:64-72 | the answer is whether a row had the id, and those rows are gone; an exception escapes and leaves the table unchanged |
| Icons.IconUrl | app/src/main/java/com/myapp/climatscope/data/remote/WeatherRemoteDataSource.kt:111 | the icon URL starts with the icon base and ends with ".png", with the code in between |
| Icons.IconCodeOfIconUrl | app/src/main/java/com/myapp/climatscope/data/remote/WeatherRemoteDataSource.kt:111 | the icon code can be read back from the URL built from it |
| Icons.IconBasesNeverCollide | app/src/main/java/com/example/climatscope/openweathermap/Mappers.kt:13 | an `img/w/` URL of the first app version never equals an `img/wn/` URL of the current one, whatever the codes |
| OpenWeatherMappers.MapWith | app/src/main/java/com/myapp/climatscope/openweathermap/Mappers.kt:7-14 | description and icon code come from the first condition; temperature, humidity and pressure come from `main` |
| OpenWeatherMappers.MapOpenWeatherDataToWeather | app/src/main/java/com/myapp/climatscope/openweathermap/Mappers.kt:5-15 | `first()` throws "List is empty." exactly when there is no condition; otherwise the weather carries the first condition's description and its icon under `img/wn/`, plus the main metrics |
| OpenWeatherMappers.OnlyFirstConditionCounts | app/src/main/java/com/myapp/climatscope/openweathermap/Mappers.kt:7 | conditions after the first never change the mapped weather |
| LegacyOpenWeatherMappers.LegacyMapOpenWeatherDataToWeather | app/src/main/java/com/example/climatscope/openweathermap/Mappers.kt:5-15 | the same contract as the current mapper, with the icon under `img/w/` |
| LegacyOpenWeatherMappers.MappersDifferOnlyInIconUrl | app/src/main/java/com/example/climatscope/openweathermap/Mappers.kt:5-15 | the two mappers fail on the same payloads; otherwise they agree on every field except the icon URL, which always differs |
| WeatherRemote.MapToWeather | app/src/main/java/com/myapp/climatscope/data/remote/WeatherRemoteDataSource.kt:102-113 | the first condition gives the description and icon code; the main block's values are copied unchanged; a missing wind block means a speed of 0.0 |
| WeatherRemote.ConditionsAffectOnlyDescriptionAndIcon | app/src/main/java/com/myapp/climatscope/data/remote/WeatherRemoteDataSource.kt:103-111 | changing the condition list changes only the description and the icon URL |
| WeatherRemote.WeatherResult | app/src/main/java/com/myapp/climatscope/data/remote/WeatherRemoteDataSource.kt:11-30 | success exactly for a 2xx answer with a body that has a condition, and then it is that body mapped; otherwise the exception itself, "API Error: code - message", "Empty response body" or "List is empty." |
| WeatherRemote.GetWeatherForCity | app/src/main/java/com/myapp/climatscope/data/remote/WeatherRemoteDataSource.kt:11-30 | a success is the mapping of the body the endpoint sent for that city name |
| WeatherRemote.GetWeatherByCoordinates | app/src/main/java/com/myapp/climatscope/data/remote/WeatherRemoteDataSource.kt:32-50 | a success is the mapping of the body the endpoint sent for those coordinates |
| WeatherRemote.ApiErrorMessage | app/src/main/java/com/myapp/climatscope/data/remote/WeatherRemoteDataSource.kt:23 | the HTTP-error message starts with "API Error: " and ends with the status message, and its length is the prefix, the rendered code, " - " and the message |
| WeatherRemote.NotFoundMessage | app/src/main/java/com/myapp/climatscope/data/remote/WeatherRemoteDataSource.kt:23 | a 404 "Not Found" answer renders as "API Error: 404 - Not Found" |
| WeatherRemote.ApiErrorMessageInjective | app/src/main/java/com/myapp/climatscope/data/remote/WeatherRemoteDataSource.kt:23 | the HTTP-error message determines both the status code and the status message |
| WeatherRemote.SearchCitiesResult | app/src/main/java/com/myapp/climatscope/data/remote/WeatherRemoteDataSource.kt:53-70 | success exactly for a 2xx answer with a body, which is returned unchanged; otherwise the exception, the HTTP-error message or "Empty response body" |
| WeatherRemote.SearchCities | app/src/main/java/com/myapp/climatscope/data/remote/WeatherRemoteDataSource.kt:53-70 | the query goes to the endpoint as given, and a success is exactly the body of a 2xx answer |
| WeatherRemote.FormatCityName | app/src/main/java/com/myapp/climatscope/data/remote/WeatherRemoteDataSource.kt:81-85 | "name, " first and the country last; "state, " right after "name, " when the state is present and the country is not empty, and nothing in between otherwise |
| WeatherRemote.CityNameResult | app/src/main/java/com/myapp/climatscope/data/remote/WeatherRemoteDataSource.kt:73-100 | fails only on a 2xx answer without a body ("Empty response body"); "Ma position" on an HTTP error or exception; "Position actuelle" for an empty list; otherwise the first place, formatted |
| WeatherRemote.GetCityNameByCoordinates | app/src/main/java/com/myapp/climatscope/data/remote/WeatherRemoteDataSource.kt:73-100 | the reverse lookup for the position fails exactly when its 2xx answer has no body |
| WeatherRemote.UnknownCityIsApiError | app/src/main/java/com/myapp/climatscope/data/remote/WeatherRemoteDataSource.kt:21-23 | a 404 "Not Found" answer becomes the failure "API Error: 404 - Not Found" |
| CitySearchDto.WithoutState | app/src/main/java/com/myapp/climatscope/data/remote/dto/CitySearchResponse.kt:14-15 | a candidate built without a state has a null state |
| CitySearchDto.GetDisplayName | app/src/main/java/com/myapp/climatscope/data/remote/dto/CitySearchResponse.kt:17-22 | "name, " first and the country last; the state and ", " sit in between exactly when the state is neither null nor empty |
| CitySearchDto.DisplayNameWithoutState | app/src/main/java/com/myapp/climatscope/data/remote/dto/CitySearchResponse.kt:15-20 | a candidate without a state is shown as "name, country" |
| CitySearchDto.EmptyStateShownAsMissing | app/src/main/java/com/myapp/climatscope/data/remote/dto/CitySearchResponse.kt:19 | an empty state is shown exactly as a missing one |
| CitySearchRemote.IsShortQuery | app/src/main/java/com/myapp/climatscope/data/remote/CitySearchRemoteDataSource.kt:28 | defined as the data source's guard: the query is blank or shorter than two characters, before trimming |
| CitySearchRemote.SearchRequestFor | app/src/main/java/com/myapp/climatscope/data/remote/CitySearchRemoteDataSource.kt:28-36 | no request exactly for a blank query or one under two characters; otherwise the trimmed query (non-empty, no leading whitespace), limit 5 and the data source's key |
| CitySearchRemote.SearchResult | app/src/main/java/com/myapp/climatscope/data/remote/CitySearchRemoteDataSource.kt:38-46 | success exactly for a 2xx answer, with the body or an empty list for a null body; otherwise "Erreur de recherche: code" or the exception |
| CitySearchRemote.SearchCities | app/src/main/java/com/myapp/climatscope/data/remote/CitySearchRemoteDataSource.kt:26-47 | a short query succeeds with no cities whatever the endpoint does; any other query is answered from the one request with the trimmed query |
| CitySearchRemote.PaddedOneLetterQueryIsSent | app/src/main/java/com/myapp/climatscope/data/remote/CitySearchRemoteDataSource.kt:28-33 | the guard looks at the untrimmed length, so " a" passes it and "a" is sent |
| CitySearchRemote.LondonIsFound | app/src/main/java/com/myapp/climatscope/data/remote/CitySearchRemoteDataSource.kt:26-47 | "Lon" against an endpoint that knows London gives that one entry, shown as "London, GB" |
| WeatherByLocation.GetWeatherByLocation | app/src/main/java/com/myapp/climatscope/domain/usecases/GetWeatherByLocationUseCase.kt:17-46 | a location failure or exception is the result; otherwise it succeeds exactly when the weather for those coordinates does, paired with the position, and passes the weather failure on |
| WeatherByLocation.NoPositionNoWeatherCall | app/src/main/java/com/myapp/climatscope/domain/usecases/GetWeatherByLocationUseCase.kt:39-44 | without a position the result is a failure that does not depend on the weather endpoint |
| WeatherByLocation.SuccessIsWeatherAtThatPosition | app/src/main/java/com/myapp/climatscope/domain/usecases/GetWeatherByLocationUseCase.kt:22-33 | a success carries the device's position and the weather mapped from the 2xx body the endpoint sent for exactly those coordinates |
| CitySearchUi.DefaultSearchState | app/src/main/java/com/myapp/climatscope/presentation/viewmodels/CitySearchViewModel.kt:21-25 | defined as `SearchState()`: no cities, not loading, no error |
| CitySearchUi.SearchStarted | app/src/main/java/com/myapp/climatscope/presentation/viewmodels/CitySearchViewModel.kt:33-37 | a search starts loading with the error cleared and the old results kept, and the state stays consistent |
| CitySearchUi.SearchCompleted | app/src/main/java/com/myapp/climatscope/presentation/viewmodels/CitySearchViewModel.kt:39-63 | loading ends; no error exactly when the use case succeeded, and then the cities are its list; a failure or exception clears the list and shows its message, "Erreur de recherche" or "Erreur inattendue" |
| CitySearchUi.CitySearchViewModel.constructor | app/src/main/java/com/myapp/climatscope/presentation/viewmodels/CitySearchViewModel.kt:18 | the view model starts in `SearchState()` |
| CitySearchUi.CitySearchViewModel.SearchCities | app/src/main/java/com/myapp/climatscope/presentation/viewmodels/CitySearchViewModel.kt:27-37 | launched exactly for a query of two characters or more; a shorter one resets the state |
| CitySearchUi.CitySearchViewModel.CompleteSearch | app/src/main/java/com/myapp/climatscope/presentation/viewmodels/CitySearchViewModel.kt:39-63 | the state becomes the completed search and stays consistent |
| CitySearchUi.CitySearchViewModel.ClearResults | app/src/main/java/com/myapp/climatscope/presentation/viewmodels/CitySearchViewModel.kt:67-69 | back to `SearchState()` |
| CitySearchUi.Step | app/src/main/java/com/myapp/climatscope/presentation/viewmodels/CitySearchViewModel.kt:27-69 | one search or clear run to completion leaves the screen consistent and not loading; a clear, or a query under two characters, gives `SearchState()` |
| CitySearchUi.RunSettlesConsistent | app/src/main/java/com/myapp/climatscope/presentation/viewmodels/CitySearchViewModel.kt:27-69 | after any sequence of searches and clears, the screen is not loading and never shows results next to an error |
| CitySearchUi.ClearIdempotent | app/src/main/java/com/myapp/climatscope/presentation/viewmodels/CitySearchViewModel.kt:67-69 | clearing twice is clearing once |
| CitySearchUi.BlankQueryEndsInDefaultState | app/src/main/java/com/myapp/climatscope/presentation/viewmodels/CitySearchViewModel.kt:27-31 | a blank query ends in `SearchState()`, whether the view model's guard or the data source's guard catches it |
| CityUi.DefaultCityUiState | app/src/main/java/com/myapp/climatscope/presentation/viewmodels/CityViewModel.kt:15-20 | defined as `CityUiState()`: no cities, no current city, not loading, no error |
| CityUi.Started | app/src/main/java/com/myapp/climatscope/presentation/viewmodels/CityViewModel.kt:37 | every launch starts loading with the error cleared and the cities and current city kept |
| CityUi.LoadCompleted | app/src/main/java/com/myapp/climatscope/presentation/viewmodels/CityViewModel.kt:38-49 | loading ends; success replaces the list; an exception keeps the list and shows its message or "Erreur lors du chargement des villes" |
| CityUi.WriteCompleted | app/src/main/java/com/myapp/climatscope/presentation/viewmodels/CityViewModel.kt:58-73 | success leaves the state to the reload; false shows the operation's error; an exception shows its own message or that error |
| CityUi.CityViewModel.constructor | app/src/main/java/com/myapp/climatscope/presentation/viewmodels/CityViewModel.kt:28-33 | the view model starts from `CityUiState()` with `loadCities` already started |
| CityUi.CityViewModel.LoadCities | app/src/main/java/com/myapp/climatscope/presentation/viewmodels/CityViewModel.kt:35-37 | the state becomes the started one |
| CityUi.CityViewModel.CompleteLoadCities | app/src/main/java/com/myapp/climatscope/presentation/viewmodels/CityViewModel.kt:38-49 | the state becomes the completed load |
| CityUi.CityViewModel.CreateCity | app/src/main/java/com/myapp/climatscope/presentation/viewmodels/CityViewModel.kt:53-59 | a blank name changes nothing and sends nothing; otherwise loading starts and the trimmed name is sent |
| CityUi.CityViewModel.CompleteCreateCity | app/src/main/java/com/myapp/climatscope/presentation/viewmodels/CityViewModel.kt:58-73 | a reload is asked for exactly when the use case answered true; otherwise the creation error is shown |
| CityUi.CityViewModel.DeleteCity | app/src/main/java/com/myapp/climatscope/presentation/viewmodels/CityViewModel.kt:77-81 | loading starts and the city is sent as given |
| CityUi.CityViewModel.CompleteDeleteCity | app/src/main/java/com/myapp/climatscope/presentation/viewmodels/CityViewModel.kt:80-96 | a reload is asked for exactly when the use case answered true; otherwise the deletion error is shown |
| CityUi.CityViewModel.RemoveCity | app/src/main/java/com/myapp/climatscope/presentation/viewmodels/CityViewModel.kt:103-105 | behaves exactly as `DeleteCity` |
| CityUi.CityViewModel.SetCurrentCity | app/src/main/java/com/myapp/climatscope/presentation/viewmodels/CityViewModel.kt:99-101 | only the current city changes |
| CityUi.CityViewModel.ClearError | app/src/main/java/com/myapp/climatscope/presentation/viewmodels/CityViewModel.kt:107-109 | only the error changes |
| CityUi.AfterWrite | app/src/main/java/com/myapp/climatscope/presentation/viewmodels/CityViewModel.kt:53-97 | a create or delete ends not loading with the current city kept; after a true answer and a successful reload the list is the reloaded one with no error; after false or an exception the list is kept and an error is shown |
| CityUi.Step | app/src/main/java/com/myapp/climatscope/presentation/viewmodels/CityViewModel.kt:35-109 | an action run to completion never leaves a settled screen loading; only `setCurrentCity` changes the current city, and it sets it to the city given |
| CityUi.RunSettles | app/src/main/java/com/myapp/climatscope/presentation/viewmodels/CityViewModel.kt:35-109 | after any sequence of completed actions, the screen is not loading |
| CityUi.CreatedCityAppearsAfterReload | app/src/main/java/com/myapp/climatscope/presentation/viewmodels/CityViewModel.kt:53-75 | for a reload that returns the table after the insert: a successful create ends with that list, whose new last row is the trimmed name under a fresh id, and no error (`CityStoreFlow.CreateCityAndReload` derives the reloaded list from the store) |
| CityUi.FailedDeleteShowsError | app/src/main/java/com/myapp/climatscope/presentation/viewmodels/CityViewModel.kt:82-88 | a delete answered false keeps the list and shows "Erreur lors de la suppression de la ville" |
| WeatherUi.DefaultWeatherUiState | app/src/main/java/com/myapp/climatscope/presentation/viewmodels/WeatherViewModel.kt:13-18 | defined as `WeatherUiState()`: no weather, an empty city name, not loading, no error |
| WeatherUi.LoadStarted | app/src/main/java/com/myapp/climatscope/presentation/viewmodels/WeatherViewModel.kt:30-35 | a load starts with the error cleared and the new city name set, and the previous weather stays visible |
| WeatherUi.LoadCompleted | app/src/main/java/com/myapp/climatscope/presentation/viewmodels/WeatherViewModel.kt:37-58 | loading ends; success replaces the weather; a failure or exception keeps the old weather and shows its message or "Erreur lors du chargement de la météo" |
| WeatherUi.WeatherViewModel.constructor | app/src/main/java/com/myapp/climatscope/presentation/viewmodels/WeatherViewModel.kt:24 | the view model starts in `WeatherUiState()` |
| WeatherUi.WeatherViewModel.LoadWeatherForCity | app/src/main/java/com/myapp/climatscope/presentation/viewmodels/WeatherViewModel.kt:27-35 | launched exactly for a non-blank name; a blank name changes nothing; weather, an error or a load on screen keeps going with a non-blank city name |
| WeatherUi.WeatherViewModel.CompleteLoadWeather | app/src/main/java/com/myapp/climatscope/presentation/viewmodels/WeatherViewModel.kt:37-58 | the state becomes the completed load; when the load it completes is still on screen, weather or an error keeps going with a non-blank city name |
| WeatherUi.WeatherViewModel.RefreshWeather | app/src/main/java/com/myapp/climatscope/presentation/viewmodels/WeatherViewModel.kt:62-67 | a load of the current city name starts exactly when that name is not blank, and weather or an error on screen keeps going with a non-blank city name |
| WeatherUi.WeatherViewModel.ClearWeather | app/src/main/java/com/myapp/climatscope/presentation/viewmodels/WeatherViewModel.kt:69-71 | back to `WeatherUiState()`, which shows nothing without a city |
| WeatherUi.WeatherViewModel.ClearError | app/src/main/java/com/myapp/climatscope/presentation/viewmodels/WeatherViewModel.kt:73-75 | only the error changes, and weather on screen keeps going with a non-blank city name |
| WeatherUi.LoadFor | app/src/main/java/com/myapp/climatscope/presentation/viewmodels/WeatherViewModel.kt:27-60 | a blank name changes nothing; otherwise the load ends not loading, under the name given, with weather or an error tied to that name |
| WeatherUi.Step | app/src/main/java/com/myapp/climatscope/presentation/viewmodels/WeatherViewModel.kt:27-75 | an action run to completion on a settled screen leaves it settled, with weather or an error tied to a non-blank city name |
| WeatherUi.RunKeepsInvariant | app/src/main/java/com/myapp/climatscope/presentation/viewmodels/WeatherViewModel.kt:27-75 | after any sequence of actions that do not overlap, weather or an error on screen always goes with a non-blank city name, and nothing is left loading |
| WeatherUi.FailedLoadKeepsStaleWeather | app/src/main/java/com/myapp/climatscope/presentation/viewmodels/WeatherViewModel.kt:46-51 | a failed load for a new city shows the new name and the error next to the previous city's weather |
| WeatherUi.ClearedDuringLoadShowsWeatherWithoutCity | app/src/main/java/com/myapp/climatscope/presentation/viewmodels/WeatherViewModel.kt:38-44 | a `clearWeather` while a load waits on the use case makes that load end with weather shown under an empty city name |
| WeatherUi.RefreshWithoutCityChangesNothing | app/src/main/java/com/myapp/climatscope/presentation/viewmodels/WeatherViewModel.kt:62-67 | refreshing with a blank city name changes nothing |
| CityStoreFlow.CreateCityAndReload | app/src/main/java/com/myapp/climatscope/presentation/viewmodels/CityViewModel.kt:53-75 | a blank name touches neither store nor screen; otherwise the store holds the insert's outcome; when stored, the screen shows the table read back (all of `old rows + [City(new id, trimmed name)]` when the scan does not fail) with no error; when not stored, the list is kept and the creation error shown |
| CityStoreFlow.DeleteCityAndReload | app/src/main/java/com/myapp/climatscope/presentation/viewmodels/CityViewModel.kt:77-97 | when a row had the city's id and nothing threw, the store loses that row (one row fewer) and the screen shows the rows the reload read, all of them when its scan does not fail, with no error; otherwise store and list are kept and the deletion error shown |

## Left out

- The Android UI, dependency injection, Retrofit and Gson are not modelled. The HTTP answer (code, message, nullable body) or the exception a call throws is an input.
- `LocationService` is not part of this model. Its answer (a position, a failure or an exception) is an input of `WeatherByLocation.GetWeatherByLocation`.
- Logging (`Log.d`, `Log.e`) is left out. It has no effect on results.
- Coroutine interleaving is modelled only through the start and completion methods, which a caller may interleave. The `Run` traces and `CityStoreFlow` run each launch to completion before the next one.
- WeatherUi.WeatherViewModel.CompleteLoadWeather: keeps weather tied to a city only for the load it completes. A `clearWeather` while a load waits at the use-case call (WeatherViewModel.kt:38) resets the state (lines 69-71). The load then resumes and copies the current state (lines 41-44), so weather appears under an empty city name. `WeatherUi.ClearedDuringLoadShowsWeatherWithoutCity` shows this. `WeatherUi.RunKeepsInvariant` and `WeatherUi.Step` hold only for runs whose actions do not interleave.
- Kotlin `Double` values are modelled as Dafny `real`, with no rounding. The mappers only copy them.
- The source files declaring the domain `City`, the legacy `City` and `GeocodingResponse` are not part of this model. `CityTable.City`, `LegacyCityStore.LegacyCity` and `WeatherRemote.GeocodingResponse` take their fields from how the code uses them (`id`, `name`; `name`, `lat`, `lon`, `country`, `state`).
- Text.IsWhitespace: the whitespace set is Kotlin's `Char.isWhitespace` for single characters. Supplementary-plane characters and UTF-16 surrogate pairs are not distinguished, and `length` counts Dafny characters rather than UTF-16 code units. This affects the length checks of `CitySearchRemote.IsShortQuery` (CitySearchRemoteDataSource.kt:28) and `CitySearchUi.CitySearchViewModel.SearchCities` (CitySearchViewModel.kt:28).
- CityTable.NextRowId: uses the largest id plus one. SQLite's random rowid choice after the largest 64-bit rowid has been used is not modelled.
- Storage faults are inputs. An insert is stored, refused or throws; a scan's cursor may throw after some number of rows; a delete may throw. Other SQLite behaviour (locking, disk full, schema upgrades) is not modelled.
- The legacy fragment screens, the navigation and the theme are outside the modelled core.
