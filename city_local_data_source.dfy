/** `CityLocalDataSource`: the city store behind the repository layer. Every
    storage error is caught here and turned into `false` or a short list. */
module LocalCityStore {
  import opened Common
  import opened CityTable

  class CityLocalDataSource {
    /** The rows of the `city` table, in rowid order. */
    var rows: seq<City>

    ghost predicate Valid()
      reads this
    {
      WellFormed(rows)
    }

    /** `onCreate`: the table starts out empty. */
    constructor ()
      ensures Valid() && rows == []
    {
      rows := [];
    }

    /** `createCity`: stores only `city.name`; the id is the one SQLite picks,
        whatever `city.id` says. True iff the new row id is positive. */
    method CreateCity(city: City, io: InsertIo) returns (created: bool)
      requires Valid()
      modifies this
      ensures Valid()
      ensures created <==> io.Stored?
      ensures rows == AfterInsert(old(rows), city.name, io)
      ensures created ==> rows == old(rows) + [City(old(NextRowId(rows)), city.name)]
    {
      var id := InsertRowId(rows, io);
      rows := AfterInsert(rows, city.name, io);
      match id
      case Returned(rowId) =>
        created := rowId > 0;
      case Raised(_) =>
        created := false;
    }

    /** `getAllCities`: one `City(id, name)` per row in scan order; when the
        cursor throws, the cities read so far (none if the query itself fails). */
    method GetAllCities(fault: Option<ReadFault>) returns (cities: seq<City>)
      requires Valid()
      ensures cities == rows[..RowsRead(|rows|, fault)]
      ensures fault.None? ==> cities == rows
    {
      cities := [];
      var i := 0;
      while i < |rows| && !(fault.Some? && fault.value.afterRows == i)
        invariant 0 <= i <= |rows|
        invariant cities == rows[..i]
        invariant fault.Some? ==> fault.value.afterRows >= i
      {
        cities := cities + [City(rows[i].id, rows[i].name)];
        i := i + 1;
      }
    }

    /** `deleteCity`: removes the rows whose id is `city.id`; true iff exactly
        one row went, so an absent id or a storage exception gives false. */
    method DeleteCity(city: City, fault: Option<Error>) returns (deleted: bool)
      requires Valid()
      modifies this
      ensures Valid()
      ensures deleted <==> fault.None? && HasId(old(rows), city.id)
      ensures rows == if fault.None? then RemoveId(old(rows), city.id) else old(rows)
    {
      if fault.Some? {
        deleted := false;
        return;
      }
      RemoveIdWellFormed(rows, city.id);
      RemoveIdCount(rows, city.id);
      var before := |rows|;
      rows := RemoveId(rows, city.id);
      var deleteCount := before - |rows|;
      deleted := deleteCount == 1;
    }
  }
}
