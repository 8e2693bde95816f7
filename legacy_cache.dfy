/**
 * The older cache manager of app/db.py: the same `cache` table, with a
 * per-key delete and a read of the whole table added.
 */
module LegacyCache {
  import opened Wrappers

  class WildberriesCacheManager<V> {
    var entries: map<string, V>

    constructor ()
      ensures entries == map[]
    {
      entries := map[];
    }

    /** `CREATE TABLE IF NOT EXISTS`: an existing table keeps its contents. */
    method Initialize()
      ensures entries == old(entries)
    {
    }

    /** `INSERT OR REPLACE`: an upsert of one key. */
    method Set(key: string, value: V)
      modifies this
      ensures entries == old(entries)[key := value]
    {
      entries := entries[key := value];
    }

    method Get(key: string) returns (r: Option<V>)
      ensures key in entries ==> r == Some(entries[key])
      ensures key !in entries ==> r == None
    {
      r := if key in entries then Some(entries[key]) else None;
    }

    /** `DELETE ... WHERE key = ?`: removes that key only; an absent key is no error. */
    method Delete(key: string)
      modifies this
      ensures entries == old(entries) - {key}
    {
      entries := entries - {key};
    }

    method Clear()
      modifies this
      ensures entries == map[]
    {
      entries := map[];
    }

    /** The whole table as a dictionary. */
    method GetAll() returns (r: map<string, V>)
      ensures r.Keys == entries.Keys
      ensures forall k :: k in r ==> r[k] == entries[k]
    {
      r := entries;
    }
  }
}
