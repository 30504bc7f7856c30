/**
 * The framework facilities the mail service relies on, reduced to what it
 * observes: the application cache (values with an absolute expiry time, read
 * against a clock) and a clock counting whole seconds.
 */
module Runtime {
  import opened Wrappers

  /** A cached integer and the instant at which it stops being visible. */
  datatype CacheEntry = CacheEntry(value: int, expiresAt: int)

  /** What a cache read of `key` at time `now` sees: the value, unless it is absent or expired. */
  function Lookup(entries: map<string, CacheEntry>, key: string, now: int): Option<int> {
    if key in entries && now < entries[key].expiresAt then Some(entries[key].value) else None
  }

  /** Wall time in seconds; it only moves forward. */
  class Clock {
    var now: int

    constructor (start: int)
      ensures now == start
    {
      now := start;
    }

    /** Time passing, e.g. a blocking sleep. */
    method Advance(seconds: nat)
      modifies this
      ensures now == old(now) + seconds
    {
      now := now + seconds;
    }
  }

  /** The shared key-value cache. */
  class Cache {
    var entries: map<string, CacheEntry>

    constructor ()
      ensures entries == map[]
    {
      entries := map[];
    }

    /** `Cache::get(key, default)`. */
    function Get(key: string, now: int, default: int): int
      reads this
    {
      Lookup(entries, key, now).GetOr(default)
    }

    /** Remaining time to live of a stored key. */
    function Ttl(key: string, now: int): int
      reads this
      requires key in entries
    {
      entries[key].expiresAt - now
    }

    /** `Cache::put(key, value, ttl)`: a non-positive lifetime removes the key instead. */
    method Put(key: string, value: int, ttl: int, now: int)
      modifies this
      ensures entries == if ttl > 0 then old(entries)[key := CacheEntry(value, now + ttl)]
                         else old(entries) - {key}
    {
      if ttl > 0 {
        entries := entries[key := CacheEntry(value, now + ttl)];
      } else {
        entries := entries - {key};
      }
    }

    /** `Cache::forget(key)`. */
    method Forget(key: string)
      modifies this
      ensures entries == old(entries) - {key}
    {
      entries := entries - {key};
    }
  }
}
