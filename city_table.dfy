/** The SQLite table `city(id INTEGER PRIMARY KEY, name TEXT)` that both city
    stores are built on, as a sequence of rows in rowid order, and what
    SQLite's `insert`, `delete` and cursor scan do to it. */
module CityTable {
  import opened Common

  /** One row of the table; also the domain `City(id, name)` read back from it. */
  datatype City = City(id: int, name: string)

  /** A rowid table: ids are positive, unique and the rows are kept in
      ascending id order, which is the order a `SELECT *` scan visits them. */
  predicate WellFormed(rows: seq<City>) {
    && (forall i | 0 <= i < |rows| :: rows[i].id > 0)
    && (forall i, j | 0 <= i < j < |rows| :: rows[i].id < rows[j].id)
  }

  predicate HasId(rows: seq<City>, id: int) {
    exists i | 0 <= i < |rows| :: rows[i].id == id
  }

  /** The rowid SQLite assigns to the next insert into a table declared
      without AUTOINCREMENT: one more than the largest id, 1 when empty. */
  function NextRowId(rows: seq<City>): (id: int)
    requires WellFormed(rows)
    ensures id > 0
    ensures forall i | 0 <= i < |rows| :: rows[i].id < id
  {
    if rows == [] then 1 else rows[|rows| - 1].id + 1
  }

  /** The table after inserting a row that holds only `name`. */
  function Insert(rows: seq<City>, name: string): (r: seq<City>)
    requires WellFormed(rows)
    ensures WellFormed(r)
  {
    rows + [City(NextRowId(rows), name)]
  }

  /** How the storage layer answers an `insert`: the row is stored, SQLite
      refuses it (and `insert` returns -1), or an exception is thrown. */
  datatype InsertIo = Stored | Refused | Raises(exception: Error)

  /** What `SQLiteDatabase.insert` hands back: the new row id, -1, or the exception. */
  function InsertRowId(rows: seq<City>, io: InsertIo): (r: Outcome<int>)
    requires WellFormed(rows)
    ensures io.Stored? ==> r.Returned? && r.value > 0 && !HasId(rows, r.value)
    ensures io.Refused? ==> r == Returned(-1)
    ensures io.Raises? ==> r == Raised(io.exception)
  {
    match io
    case Stored => Returned(NextRowId(rows))
    case Refused => Returned(-1)
    case Raises(e) => Raised(e)
  }

  /** The table after an insert attempt: changed only when the row was stored. */
  function AfterInsert(rows: seq<City>, name: string, io: InsertIo): (r: seq<City>)
    requires WellFormed(rows)
    ensures WellFormed(r)
  {
    if io.Stored? then Insert(rows, name) else rows
  }

  /** The table after `DELETE FROM city WHERE id = ?`: every row with that id
      goes, the others stay in their order. */
  function RemoveId(rows: seq<City>, id: int): (r: seq<City>)
    ensures forall c :: c in r <==> c in rows && c.id != id
    decreases |rows|
  {
    if rows == [] then []
    else
      var rest := RemoveId(rows[1..], id);
      assert forall c :: c in rows <==> c == rows[0] || c in rows[1..];
      if rows[0].id == id then rest else [rows[0]] + rest
  }

  lemma HasIdSplit(rows: seq<City>, id: int)
    requires rows != []
    ensures HasId(rows, id) <==> rows[0].id == id || HasId(rows[1..], id)
  {
    if HasId(rows[1..], id) {
      var i :| 0 <= i < |rows[1..]| && rows[1..][i].id == id;
      assert rows[i + 1].id == id;
    }
  }

  /** A row with a positive id below every id of a rowid table can head it. */
  lemma ConsWellFormed(c: City, rest: seq<City>)
    requires c.id > 0 && WellFormed(rest)
    requires forall k | 0 <= k < |rest| :: c.id < rest[k].id
    ensures WellFormed([c] + rest)
  {
    var r := [c] + rest;
    forall i, j | 0 <= i < j < |r|
      ensures r[i].id < r[j].id
    {
      assert r[j] == rest[j - 1];
      if i > 0 {
        assert r[i] == rest[i - 1];
      }
    }
  }

  /** Deleting by id keeps the table a rowid table. */
  lemma {:induction false} RemoveIdWellFormed(rows: seq<City>, id: int)
    requires WellFormed(rows)
    ensures WellFormed(RemoveId(rows, id))
    decreases |rows|
  {
    if rows != [] {
      var tail := rows[1..];
      assert WellFormed(tail);
      RemoveIdWellFormed(tail, id);
      var rest := RemoveId(tail, id);
      if rows[0].id != id {
        forall k | 0 <= k < |rest|
          ensures rows[0].id < rest[k].id
        {
          assert rest[k] in tail;
          var j :| 0 <= j < |tail| && tail[j] == rest[k];
          assert tail[j] == rows[j + 1];
        }
        ConsWellFormed(rows[0], rest);
      }
    }
  }

  /** In a rowid table the delete removes exactly one row when the id is
      present and none when it is absent. */
  lemma {:induction false} RemoveIdCount(rows: seq<City>, id: int)
    requires WellFormed(rows)
    ensures |RemoveId(rows, id)| == if HasId(rows, id) then |rows| - 1 else |rows|
    decreases |rows|
  {
    if rows != [] {
      HasIdSplit(rows, id);
      assert WellFormed(rows[1..]);
      RemoveIdCount(rows[1..], id);
      if rows[0].id == id {
        assert !HasId(rows[1..], id);
      }
    }
  }

  /** A cursor that throws at its `moveToNext` call after `afterRows` rows. */
  datatype ReadFault = ReadFault(afterRows: nat, exception: Error)

  /** Whether a scan of `count` rows meets the fault: the cursor is asked to
      move `count + 1` times, so a fault after at most `count` rows is reached. */
  predicate ScanFails(count: nat, fault: Option<ReadFault>) {
    fault.Some? && fault.value.afterRows <= count
  }

  /** The number of rows a scan of `count` rows reads before it stops. */
  function RowsRead(count: nat, fault: Option<ReadFault>): (n: nat)
    ensures n <= count
    ensures ScanFails(count, fault) <==> fault.Some? && n == fault.value.afterRows
    ensures !ScanFails(count, fault) ==> n == count
  {
    if ScanFails(count, fault) then fault.value.afterRows else count
  }

  /** The names in the table, in scan order. */
  function Names(rows: seq<City>): (names: seq<string>)
    ensures |names| == |rows|
    ensures forall i | 0 <= i < |rows| :: names[i] == rows[i].name
  {
    seq(|rows|, i requires 0 <= i < |rows| => rows[i].name)
  }

  /** Creating a city adds exactly one row with that name and keeps every
      other row: no duplicate is inserted beyond the one requested. */
  lemma InsertAddsOneRowNamed(rows: seq<City>, name: string)
    requires WellFormed(rows)
    ensures multiset(Names(Insert(rows, name))) == multiset(Names(rows)) + multiset{name}
    ensures forall c :: c in rows ==> c in Insert(rows, name)
  {
    assert Names(Insert(rows, name)) == Names(rows) + [name];
  }

  /** Deleting an id that no row has leaves the table exactly as it was. */
  lemma {:induction false} RemoveAbsentIdChangesNothing(rows: seq<City>, id: int)
    requires !HasId(rows, id)
    ensures RemoveId(rows, id) == rows
    decreases |rows|
  {
    if rows != [] {
      assert rows[0].id != id;
      HasIdSplit(rows, id);
      RemoveAbsentIdChangesNothing(rows[1..], id);
      assert rows == [rows[0]] + rows[1..];
    }
  }

  /** A city just created can be deleted, and deleting it restores the table. */
  lemma DeleteUndoesInsert(rows: seq<City>, name: string)
    requires WellFormed(rows)
    ensures HasId(Insert(rows, name), NextRowId(rows))
    ensures RemoveId(Insert(rows, name), NextRowId(rows)) == rows
  {
    var id := NextRowId(rows);
    var r := Insert(rows, name);
    assert r[|rows|].id == id;
    RemoveAbsentIdChangesNothing(rows, id);
    RemoveIdDistributes(rows, [City(id, name)], id);
  }

  lemma {:induction false} RemoveIdDistributes(a: seq<City>, b: seq<City>, id: int)
    ensures RemoveId(a + b, id) == RemoveId(a, id) + RemoveId(b, id)
    decreases |a|
  {
    if a != [] {
      assert (a + b)[1..] == a[1..] + b;
      RemoveIdDistributes(a[1..], b, id);
    } else {
      assert a + b == b;
    }
  }
}
