/** `DataBase`: the older city store used by the fragment screens. It works
    on a mutable `City` object and lets storage exceptions escape. */
module LegacyCityStore {
  import opened Common
  import opened CityTable

  /** The legacy `City`: its id is overwritten by `DataBase.createCity`. */
  class LegacyCity {
    var id: int
    var name: string

    constructor (id: int, name: string)
      ensures this.id == id && this.name == name
    {
      this.id := id;
      this.name := name;
    }
  }

  class DataBase {
    /** The rows of the `city` table, in rowid order. */
    var rows: seq<City>

    ghost predicate Valid()
      reads this
    {
      WellFormed(rows)
    }

    constructor ()
      ensures Valid() && rows == []
    {
      rows := [];
    }

    /** `createCity`: inserts `city.name`, writes the id `insert` returned
        (-1 when refused) into `city.id` and answers whether it is positive.
        An exception escapes before `city.id` is touched. */
    method CreateCity(city: LegacyCity, io: InsertIo) returns (outcome: Outcome<bool>)
      requires Valid()
      modifies this, city`id
      ensures Valid()
      ensures rows == AfterInsert(old(rows), old(city.name), io)
      ensures io.Stored? ==> outcome == Returned(true) && city.id == old(NextRowId(rows))
                             && city.id > 0
      ensures io.Refused? ==> outcome == Returned(false) && city.id == -1
      ensures io.Raises? ==> outcome == Raised(io.exception) && city.id == old(city.id)
    {
      var id := InsertRowId(rows, io);
      rows := AfterInsert(rows, city.name, io);
      match id
      case Returned(rowId) =>
        city.id := rowId;
        outcome := Returned(rowId > 0);
      case Raised(e) =>
        outcome := Raised(e);
    }

    /** `getAllCities`: a fresh `City(id, name)` object per row in scan order;
        a cursor exception escapes. */
    method GetAllCities(fault: Option<ReadFault>) returns (outcome: Outcome<seq<LegacyCity>>)
      requires Valid()
      ensures ScanFails(|rows|, fault) ==> outcome == Raised(fault.value.exception)
      ensures !ScanFails(|rows|, fault) ==> outcome.Returned? && |outcome.value| == |rows|
      ensures outcome.Returned? ==>
                forall k | 0 <= k < |outcome.value| ::
                  fresh(outcome.value[k])
                  && outcome.value[k].id == rows[k].id && outcome.value[k].name == rows[k].name
    {
      var cities: seq<LegacyCity> := [];
      var i := 0;
      while i < |rows| && !(fault.Some? && fault.value.afterRows == i)
        invariant 0 <= i <= |rows|
        invariant |cities| == i
        invariant forall k | 0 <= k < i ::
                    fresh(cities[k]) && cities[k].id == rows[k].id && cities[k].name == rows[k].name
        invariant fault.Some? ==> fault.value.afterRows >= i
      {
        var city := new LegacyCity(rows[i].id, rows[i].name);
        cities := cities + [city];
        i := i + 1;
      }
      if fault.Some? && fault.value.afterRows == i {
        outcome := Raised(fault.value.exception);
      } else {
        outcome := Returned(cities);
      }
    }

    /** `deleteCity`: removes the rows whose id is `city.id` and answers
        whether exactly one went; an exception escapes. */
    method DeleteCity(city: LegacyCity, fault: Option<Error>) returns (outcome: Outcome<bool>)
      requires Valid()
      modifies this
      ensures Valid()
      ensures fault.Some? ==> outcome == Raised(fault.value) && rows == old(rows)
      ensures fault.None? ==> outcome == Returned(HasId(old(rows), city.id))
                              && rows == RemoveId(old(rows), city.id)
    {
      if fault.Some? {
        outcome := Raised(fault.value);
        return;
      }
      RemoveIdWellFormed(rows, city.id);
      RemoveIdCount(rows, city.id);
      var before := |rows|;
      rows := RemoveId(rows, city.id);
      var deleteCount := before - |rows|;
      outcome := Returned(deleteCount == 1);
    }
  }
}
