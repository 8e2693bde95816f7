/**
 * The SQLite-backed managers of app/db/db.py. Each table is a field: the
 * `cache` table a map from key to value, the three tracking tables the
 * sequence of their rows. The rows are kept in insertion order, a choice of
 * the model: the SELECTs have no ORDER BY, so SQLite promises none. The UNIQUE and PRIMARY KEY
 * constraints of each table are its `Valid()` invariant, and an insert that
 * would break one fails (SQLite's `IntegrityError`) without writing anything.
 * A constructor models a manager over a database whose tables are empty.
 */
module Db {
  import opened Wrappers
  import opened Seqs
  import opened Dto

  /** The `ValueError`s the managers raise. */
  datatype DbError = AlreadyExists | NotFound

  /** The `cache` table: `key TEXT PRIMARY KEY, value TEXT`, values JSON-encoded. */
  class WildberriesCacheManager<V> {
    var entries: map<string, V>

    constructor ()
      ensures entries == map[]
    {
      entries := map[];
    }

    /** `CREATE TABLE IF NOT EXISTS`: an existing table keeps its contents. */
    method Initialize()
      ensures entries == old(entries)
    {
    }

    /** `INSERT OR REPLACE`: an upsert of one key. */
    method Set(key: string, value: V)
      modifies this
      ensures entries == old(entries)[key := value]
    {
      entries := entries[key := value];
    }

    /** The stored value, or `None` when the key has no row. */
    method Get(key: string) returns (r: Option<V>)
      ensures key in entries ==> r == Some(entries[key])
      ensures key !in entries ==> r == None
    {
      r := if key in entries then Some(entries[key]) else None;
    }

    /** `DELETE FROM cache`. */
    method Clear()
      modifies this
      ensures entries == map[]
    {
      entries := map[];
    }
  }

  function Ids(rows: seq<WarehouseShort>): set<int> {
    set w | w in rows :: w.id
  }

  function Names(rows: seq<WarehouseShort>): set<string> {
    set w | w in rows :: w.name
  }

  /** The `warehouses` table: `id` is the primary key and `name` is UNIQUE. */
  class TrackedWarehouseManager {
    var rows: seq<WarehouseShort>

    ghost predicate Valid()
      reads this
    {
      DistinctBy(rows, IdOf) && DistinctBy(rows, NameOf)
    }

    constructor ()
      ensures Valid() && rows == []
    {
      rows := [];
    }

    method GetAll() returns (r: seq<WarehouseShort>)
      ensures r == rows
    {
      r := rows;
    }

    /**
     * Inserts the row, or fails when its id or its name is already taken.
     * (The source's failure message names undefined variables, so the
     * exception it raises is a `NameError`; either way nothing is written.)
     */
    method Add(w: WarehouseShort) returns (res: Outcome<DbError>)
      requires Valid()
      modifies this
      ensures Valid()
      ensures res == if w.id in Ids(old(rows)) || w.name in Names(old(rows)) then Fail(AlreadyExists) else Pass
      ensures rows == if res.Pass? then old(rows) + [w] else old(rows)
    {
      if w.id in Ids(rows) || w.name in Names(rows) {
        res := Fail(AlreadyExists);
      } else {
        assert forall i :: 0 <= i < |rows| ==> rows[i] in rows;
        DistinctByAppend(rows, w, IdOf);
        DistinctByAppend(rows, w, NameOf);
        rows := rows + [w];
        res := Pass;
      }
    }

    /** Looks the id up first; deletes its row when present, fails otherwise. */
    method Drop(id: int) returns (res: Outcome<DbError>)
      requires Valid()
      modifies this
      ensures Valid()
      ensures res == if id in Ids(old(rows)) then Pass else Fail(NotFound)
      ensures rows == if res.Pass? then Filter(old(rows), (w: WarehouseShort) => w.id != id) else old(rows)
    {
      if id !in Ids(rows) {
        res := Fail(NotFound);
      } else {
        FilterDistinctBy(rows, (w: WarehouseShort) => w.id != id, IdOf);
        FilterDistinctBy(rows, (w: WarehouseShort) => w.id != id, NameOf);
        rows := Filter(rows, (w: WarehouseShort) => w.id != id);
        res := Pass;
      }
    }

    /** The row with this id, or `NotFound`. */
    method Get(id: int) returns (r: Result<WarehouseShort, DbError>)
      ensures r.Ok? <==> id in Ids(rows)
      ensures r.Ok? ==> r.value in rows && r.value.id == id
    {
      if id in Ids(rows) {
        var w :| w in rows && w.id == id;
        r := Ok(w);
      } else {
        r := Err(NotFound);
      }
    }

    method Clear()
      modifies this
      ensures Valid() && rows == []
    {
      rows := [];
    }
  }

  /** Deleting a present id from a table whose ids are unique removes exactly that row. */
  lemma DropWarehouseRemovesOneRow(rows: seq<WarehouseShort>, i: nat)
    requires DistinctBy(rows, IdOf)
    requires i < |rows|
    ensures Filter(rows, (w: WarehouseShort) => w.id != rows[i].id) == rows[..i] + rows[i + 1..]
  {
    var id := rows[i].id;
    forall j | 0 <= j < |rows| && j != i
      ensures rows[j].id != id
    {
      if j < i {
        assert IdOf(rows[j]) != IdOf(rows[i]);
      } else {
        assert IdOf(rows[i]) != IdOf(rows[j]);
      }
    }
    FilterDropsOne(rows, (w: WarehouseShort) => w.id != id, i);
  }

  /** Deleting a present element from a duplicate-free table removes exactly that row. */
  lemma DropNameRemovesOneRow(rows: seq<string>, i: nat)
    requires NoDuplicates(rows)
    requires i < |rows|
    ensures Filter(rows, (r: string) => r != rows[i]) == rows[..i] + rows[i + 1..]
  {
    FilterDropsOne(rows, (r: string) => r != rows[i], i);
  }

  /** The `box_types` table: box-type names, `name` UNIQUE. */
  class BoxTypeManager {
    var rows: seq<string>

    ghost predicate Valid()
      reads this
    {
      NoDuplicates(rows)
    }

    constructor ()
      ensures Valid() && rows == []
    {
      rows := [];
    }

    method GetAll() returns (r: seq<string>)
      ensures r == rows
    {
      r := rows;
    }

    method Add(name: string) returns (res: Outcome<DbError>)
      requires Valid()
      modifies this
      ensures Valid()
      ensures res == if name in old(rows) then Fail(AlreadyExists) else Pass
      ensures rows == if res.Pass? then old(rows) + [name] else old(rows)
    {
      if name in rows {
        res := Fail(AlreadyExists);
      } else {
        rows := rows + [name];
        res := Pass;
      }
    }

    method Drop(name: string) returns (res: Outcome<DbError>)
      requires Valid()
      modifies this
      ensures Valid()
      ensures res == if name in old(rows) then Pass else Fail(NotFound)
      ensures rows == if res.Pass? then Filter(old(rows), (r: string) => r != name) else old(rows)
    {
      if name !in rows {
        res := Fail(NotFound);
      } else {
        FilterNoDuplicates(rows, (r: string) => r != name);
        rows := Filter(rows, (r: string) => r != name);
        res := Pass;
      }
    }

    method Clear()
      modifies this
      ensures Valid() && rows == []
    {
      rows := [];
    }
  }

  /** The `dates` table: serialized dates, `date` UNIQUE. */
  class DateManager {
    var rows: seq<string>

    ghost predicate Valid()
      reads this
    {
      NoDuplicates(rows)
    }

    constructor ()
      ensures Valid() && rows == []
    {
      rows := [];
    }

    method GetAll() returns (r: seq<string>)
      ensures r == rows
    {
      r := rows;
    }

    method Add(date: string) returns (res: Outcome<DbError>)
      requires Valid()
      modifies this
      ensures Valid()
      ensures res == if date in old(rows) then Fail(AlreadyExists) else Pass
      ensures rows == if res.Pass? then old(rows) + [date] else old(rows)
    {
      if date in rows {
        res := Fail(AlreadyExists);
      } else {
        rows := rows + [date];
        res := Pass;
      }
    }

    method Drop(date: string) returns (res: Outcome<DbError>)
      requires Valid()
      modifies this
      ensures Valid()
      ensures res == if date in old(rows) then Pass else Fail(NotFound)
      ensures rows == if res.Pass? then Filter(old(rows), (r: string) => r != date) else old(rows)
    {
      if date !in rows {
        res := Fail(NotFound);
      } else {
        FilterNoDuplicates(rows, (r: string) => r != date);
        rows := Filter(rows, (r: string) => r != date);
        res := Pass;
      }
    }

    method Clear()
      modifies this
      ensures Valid() && rows == []
    {
      rows := [];
    }
  }
}
