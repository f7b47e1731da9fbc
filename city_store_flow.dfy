/** The city view model wired to its store: `createCity` of `CityViewModel`
    through `CreateCityUseCase` and `CityRepositoryImpl` to
    `CityLocalDataSource`, followed by the reload it asks for. The use case
    and the repository only pass values through, so they have no step of
    their own here. */
module CityStoreFlow {
  import opened Common
  import opened Text
  import opened CityTable
  import opened LocalCityStore
  import opened CityUi

  /** `createCity(cityName)` run to completion against the store: the use
      case builds `City(name = trimmed name)` (the id it carries is ignored
      by the store), and a stored row is followed by `loadCities`, which
      reads the table back with `getAllCities`. */
  method CreateCityAndReload(vm: CityViewModel, store: CityLocalDataSource, cityName: string,
                             io: InsertIo, fault: Option<ReadFault>)
    requires vm.Valid() && store.Valid()
    modifies vm, store
    ensures vm.Valid() && store.Valid()
    ensures IsBlank(cityName) ==> vm.state == old(vm.state) && store.rows == old(store.rows)
    ensures !IsBlank(cityName) ==> store.rows == AfterInsert(old(store.rows), Trim(cityName), io)
    ensures !IsBlank(cityName) ==> !vm.state.isLoading && vm.state.currentCity == old(vm.state.currentCity)
    ensures !IsBlank(cityName) && io.Stored? ==>
              && store.rows == old(store.rows) + [City(NextRowId(old(store.rows)), Trim(cityName))]
              && vm.state.cities == store.rows[..RowsRead(|store.rows|, fault)]
              && vm.state.errorMessage.None?
    ensures !IsBlank(cityName) && io.Stored? && fault.None? ==>
              vm.state.cities == old(store.rows) + [City(NextRowId(old(store.rows)), Trim(cityName))]
    ensures !IsBlank(cityName) && !io.Stored? ==>
              vm.state.cities == old(vm.state.cities) && vm.state.errorMessage == Some(CreateErrorMessage)
  {
    var request := vm.CreateCity(cityName);
    if request.None? {
      return;
    }
    var created := store.CreateCity(City(0, request.value), io);
    var reload := vm.CompleteCreateCity(Returned(created));
    if reload {
      vm.LoadCities();
      var cities := store.GetAllCities(fault);
      vm.CompleteLoadCities(Returned(cities));
    }
  }

  /** `deleteCity(city)` run to completion against the store: a row with the
      city's id is removed and the list reloaded with `getAllCities`, whose
      cursor may fail after some rows; otherwise the deletion error is shown
      and the list kept. */
  method DeleteCityAndReload(vm: CityViewModel, store: CityLocalDataSource, city: City,
                             fault: Option<Error>, readFault: Option<ReadFault>)
    requires vm.Valid() && store.Valid()
    modifies vm, store
    ensures vm.Valid() && store.Valid()
    ensures !vm.state.isLoading && vm.state.currentCity == old(vm.state.currentCity)
    ensures fault.None? ==> store.rows == RemoveId(old(store.rows), city.id)
    ensures fault.None? && HasId(old(store.rows), city.id) ==>
              && vm.state.cities == store.rows[..RowsRead(|store.rows|, readFault)]
              && vm.state.errorMessage.None?
              && |store.rows| == |old(store.rows)| - 1
    ensures fault.None? && HasId(old(store.rows), city.id) && readFault.None? ==>
              vm.state.cities == RemoveId(old(store.rows), city.id)
    ensures fault.Some? || !HasId(old(store.rows), city.id) ==>
              store.rows == old(store.rows)
              && vm.state.cities == old(vm.state.cities) && vm.state.errorMessage == Some(DeleteErrorMessage)
  {
    var request := vm.DeleteCity(city);
    var deleted := store.DeleteCity(request, fault);
    if fault.None? && !deleted {
      RemoveAbsentIdChangesNothing(old(store.rows), city.id);
    }
    if fault.None? && deleted {
      RemoveIdCount(old(store.rows), city.id);
    }
    var reload := vm.CompleteDeleteCity(Returned(deleted));
    if reload {
      vm.LoadCities();
      var cities := store.GetAllCities(readFault);
      vm.CompleteLoadCities(Returned(cities));
    }
  }
}
