/**
 * The in-memory cache of the MCP client: a dictionary from keys to entries
 * carrying a value and an expiry time. Reads are lazy (an expired entry is
 * reported as missing but stays in the store); writes overwrite. The clock
 * (`time.monotonic()`) becomes an explicit `now` argument.
 */
module TtlCache {
  import opened Wrappers

  /** Seconds an entry stays visible unless the owner chooses otherwise. */
  const DefaultTtl: int := 300

  /** `_CacheEntry`: the cached value and the instant from which it is stale. */
  datatype Entry<T> = Entry(data: T, expiresAt: int)

  /** The answer `get` gives for `key` at time `now` on a given store. */
  function Lookup<T>(store: map<string, Entry<T>>, key: string, now: int): Option<T> {
    if key in store && now < store[key].expiresAt then Some(store[key].data) else None
  }

  /**
   * An entry written at time `t` is seen by every read in `[t, t + ttl)` and by
   * none from `t + ttl` on, whatever the rest of the store holds.
   */
  lemma VisibilityWindow<T>(store: map<string, Entry<T>>, key: string, v: T, t: int, ttl: int, now: int)
    requires t <= now
    ensures Lookup(store[key := Entry(v, t + ttl)], key, now) == (if now < t + ttl then Some(v) else None)
  {
  }

  /** Writing one key never changes what a read of another key returns. */
  lemma SetIsolated<T>(store: map<string, Entry<T>>, key: string, e: Entry<T>, other: string, now: int)
    requires other != key
    ensures Lookup(store[key := e], other, now) == Lookup(store, other, now)
  {
  }

  /** `_SimpleCache`. */
  class SimpleCache<T> {
    const ttl: int
    var store: map<string, Entry<T>>

    constructor (ttl: int)
      ensures this.ttl == ttl && store == map[]
    {
      this.ttl := ttl;
      store := map[];
    }

    /**
     * `get`: the stored value exactly when an entry exists and `now` is
     * strictly before its expiry; the store is left as it is (no `modifies`),
     * so an expired entry is not removed.
     */
    method Get(key: string, now: int) returns (r: Option<T>)
      ensures r.Some? <==> key in store && now < store[key].expiresAt
      ensures r.Some? ==> r.value == store[key].data
      ensures r == Lookup(store, key, now)
    {
      if key in store {
        var entry := store[key];
        if now < entry.expiresAt {
          return Some(entry.data);
        }
      }
      return None;
    }

    /** `set`: replaces the entry of `key` with one expiring `ttl` after `now`; no other key changes. */
    method Set(key: string, value: T, now: int)
      modifies this
      ensures store == old(store)[key := Entry(value, now + ttl)]
    {
      store := store[key := Entry(value, now + ttl)];
    }
  }
}
