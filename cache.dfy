/** The in-memory response cache the handler uses (app.js:9, 169-170, 213),
    as the handler observes it: a map from key to value and expiry time on a
    logical clock counted in seconds. Every entry lives for the standard TTL
    of 30 minutes from the moment it was stored; reading it does not extend
    it, and a read that finds it expired deletes it. */
module ResponseCache {
  import opened Wrappers

  /** `stdTTL: 60 * 30` */
  const TtlSeconds: int := 60 * 30

  datatype Entry<V> = Entry(value: V, expiresAt: int)

  /** An entry is still served at `now` up to and including its expiry time. */
  predicate Alive<V>(e: Entry<V>, now: int)
  {
    now <= e.expiresAt
  }

  /** What `cache.get(key)` returns at time `now`. */
  function Lookup<V>(entries: map<string, Entry<V>>, key: string, now: int): Option<V>
  {
    if key in entries && Alive(entries[key], now) then Some(entries[key].value) else None
  }

  /** The entries after `cache.get(key)` at `now`: an expired entry for `key`
      is deleted, nothing else changes. */
  function AfterLookup<V>(entries: map<string, Entry<V>>, key: string, now: int): map<string, Entry<V>>
  {
    if key in entries && !Alive(entries[key], now) then entries - {key} else entries
  }

  /** The entries after `cache.set(key, value)` at `now`. */
  function Store<V>(entries: map<string, Entry<V>>, key: string, value: V, now: int): map<string, Entry<V>>
  {
    entries[key := Entry(value, now + TtlSeconds)]
  }

  /** The key-value pairs a read at `now` can see. */
  function Live<V>(entries: map<string, Entry<V>>, now: int): map<string, V>
  {
    map k | k in entries && Alive(entries[k], now) :: entries[k].value
  }

  /** A stored value is read back until TTL seconds after it was stored, and
      not after; storing leaves every other key as it was. */
  lemma StoreThenLookup<V>(entries: map<string, Entry<V>>, key: string, value: V, storedAt: int, other: string, now: int)
    ensures Lookup(Store(entries, key, value, storedAt), key, now)
            == if now <= storedAt + TtlSeconds then Some(value) else None
    ensures other != key ==> Lookup(Store(entries, key, value, storedAt), other, now) == Lookup(entries, other, now)
  {
  }

  /** A read changes nothing any later read at the same time can see, and it
      never extends an entry's life (there is no sliding expiry). */
  lemma LookupKeepsLiveEntries<V>(entries: map<string, Entry<V>>, key: string, now: int)
    ensures Live(AfterLookup(entries, key, now), now) == Live(entries, now)
    ensures forall k | k in AfterLookup(entries, key, now) :: k in entries && AfterLookup(entries, key, now)[k] == entries[k]
  {
    var after := AfterLookup(entries, key, now);
    assert Live(after, now).Keys == Live(entries, now).Keys;
  }

  /** Stored at second 0: still served at 1799 and at 1800, gone at 1801. */
  lemma ExpiryScenario<V>(entries: map<string, Entry<V>>, value: V)
    ensures Lookup(Store(entries, "wilaya:16:200", value, 0), "wilaya:16:200", 1799) == Some(value)
    ensures Lookup(Store(entries, "wilaya:16:200", value, 0), "wilaya:16:200", 1800) == Some(value)
    ensures Lookup(Store(entries, "wilaya:16:200", value, 0), "wilaya:16:200", 1801) == None
  {
  }

  /** The cache object shared by all requests. */
  class Cache<V> {
    var entries: map<string, Entry<V>>

    constructor ()
      ensures entries == map[]
    {
      entries := map[];
    }

    /** `cache.get(key)` at time `now`. */
    method Get(key: string, now: int) returns (r: Option<V>)
      modifies this
      ensures r == Lookup(old(entries), key, now)
      ensures entries == AfterLookup(old(entries), key, now)
    {
      r := None;
      if key in entries {
        if Alive(entries[key], now) {
          r := Some(entries[key].value);
        } else {
          entries := entries - {key};
        }
      }
    }

    /** `cache.set(key, value)` at time `now`. */
    method Set(key: string, value: V, now: int)
      modifies this
      ensures entries == Store(old(entries), key, value, now)
    {
      entries := entries[key := Entry(value, now + TtlSeconds)];
    }
  }
}
