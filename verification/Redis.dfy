/**
 * The key-value store behind both caches. A call that does not get through (`up` is false) changes
 * nothing and reads nothing, and the caller is not told.
 */
module Redis {
  import opened Wrappers
  import opened Json

  datatype Entry = Entry(value: Json, expiresAt: int)

  type Entries = map<string, Entry>

  /** What GET answers: an entry is still there at the instant it expires, and gone after it. */
  function Lookup(entries: Entries, key: string, now: int, up: bool): Option<Json> {
    if up && key in entries && now <= entries[key].expiresAt then Some(entries[key].value) else None
  }

  function Stored(entries: Entries, key: string, value: Json, ttl: nat, now: int, up: bool): Entries {
    if up then entries[key := Entry(value, now + ttl)] else entries
  }

  function Deleted(entries: Entries, key: string, up: bool): Entries {
    if up then entries - {key} else entries
  }

  /** What was set is read back for `ttl` seconds and not after; other keys are left alone. */
  lemma SetThenGet(entries: Entries, key: string, value: Json, ttl: nat, now: int, later: int, other: string)
    ensures
      var entries' := Stored(entries, key, value, ttl, now, true);
      && Lookup(entries', key, later, true) == (if later <= now + ttl then Some(value) else None)
      && (other != key ==> Lookup(entries', other, later, true) == Lookup(entries, other, later, true))
  {
  }

  /** What was deleted is not read; other keys are left alone. */
  lemma DeleteThenGet(entries: Entries, key: string, later: int, other: string)
    ensures
      var entries' := Deleted(entries, key, true);
      && Lookup(entries', key, later, true) == None
      && (other != key ==> Lookup(entries', other, later, true) == Lookup(entries, other, later, true))
  {
  }

  /** A call that does not get through changes nothing and reads nothing. */
  lemma LostCalls(entries: Entries, key: string, value: Json, ttl: nat, now: int)
    ensures Stored(entries, key, value, ttl, now, false) == entries == Deleted(entries, key, false)
    ensures Lookup(entries, key, now, false) == None
  {
  }

  class RedisStore {
    var entries: Entries

    constructor ()
      ensures entries == map[]
    {
      entries := map[];
    }

    method Get(key: string, now: int, up: bool) returns (r: Option<Json>)
      ensures r == Lookup(entries, key, now, up)
    {
      r := None;
      if up && key in entries {
        var e := entries[key];
        if now <= e.expiresAt {
          r := Some(e.value);
        }
      }
    }

    method SetEx(key: string, value: Json, ttl: nat, now: int, up: bool)
      modifies this
      ensures entries == Stored(old(entries), key, value, ttl, now, up)
    {
      if up {
        entries := entries[key := Entry(value, now + ttl)];
      }
    }

    method Del(key: string, up: bool)
      modifies this
      ensures entries == Deleted(old(entries), key, up)
    {
      if up {
        entries := entries - {key};
      }
    }
  }
}
