/** `CacheRepository`: a key-value cache with a time-to-live per entry, over a
    Redis client whose every call may fail. */
module Cache {
  import opened Wrappers
  import opened Weather
  import opened Calls

  /** Entries live five minutes unless the caller says otherwise. */
  const CACHE_TTL_SECONDS: nat := 300

  /** What Redis holds at a key: the serialised value and the expiry it was
      given, in seconds. Expiry itself is the backend's business. */
  datatype Entry = Entry(value: Json, ttl: nat)

  class CacheRepository {
    var entries: map<string, Entry>
    /** The log each call into this repository is appended to. */
    const trace: Trace

    constructor (trace: Trace, initial: map<string, Entry>)
      ensures this.trace == trace && entries == initial
    {
      this.trace := trace;
      entries := initial;
    }

    /** `get(key)`: the parsed value, null for an absent key; a client error
        is rethrown as it is. */
    method Get(backend: Link, key: string) returns (r: Result<Option<Json>>)
      modifies trace
      ensures trace.calls == old(trace.calls) + [CacheGet(key)]
      ensures backend.Down? ==> r == Err(Failure(backend.reason))
      ensures backend.Up? && key !in entries ==> r == Ok(None)
      ensures backend.Up? && key in entries ==> r == Ok(Some(entries[key].value))
    {
      trace.calls := trace.calls + [CacheGet(key)];
      if backend.Down? {
        return Err(Failure(backend.reason));
      }
      if key in entries {
        r := Ok(Some(entries[key].value));
      } else {
        r := Ok(None);
      }
    }

    /** `set(key, data, ttlSeconds)`: overwrites the key with the serialised
        value and its TTL and leaves every other key alone; a client error is
        rethrown and nothing is written. */
    method Set(backend: Link, key: string, data: Json, ttlSeconds: nat := CACHE_TTL_SECONDS)
      returns (r: Outcome)
      modifies this, trace
      ensures trace.calls == old(trace.calls) + [CacheSet(key, data, ttlSeconds)]
      ensures backend.Down? ==> r == Fail(Failure(backend.reason)) && entries == old(entries)
      ensures backend.Up? ==> r == Pass && entries == old(entries)[key := Entry(data, ttlSeconds)]
      ensures forall k :: k != key ==> (k in entries <==> k in old(entries))
      ensures forall k :: k != key && k in entries ==> entries[k] == old(entries)[k]
    {
      trace.calls := trace.calls + [CacheSet(key, data, ttlSeconds)];
      if backend.Down? {
        return Fail(Failure(backend.reason));
      }
      entries := entries[key := Entry(data, ttlSeconds)];
      r := Pass;
    }

    /** `invalidate(key)`: deletes the key and nothing else; a client error is
        rethrown and nothing is deleted. */
    method Invalidate(backend: Link, key: string) returns (r: Outcome)
      modifies this, trace
      ensures trace.calls == old(trace.calls) + [CacheInvalidate(key)]
      ensures backend.Down? ==> r == Fail(Failure(backend.reason)) && entries == old(entries)
      ensures backend.Up? ==> r == Pass && entries == old(entries) - {key}
      ensures backend.Up? ==> key !in entries
      ensures forall k :: k != key ==> (k in entries <==> k in old(entries))
      ensures forall k :: k != key && k in entries ==> entries[k] == old(entries)[k]
    {
      trace.calls := trace.calls + [CacheInvalidate(key)];
      if backend.Down? {
        return Fail(Failure(backend.reason));
      }
      entries := entries - {key};
      r := Pass;
    }
  }

  /** On an empty cache `get` is null; a record written with the default TTL
      comes back from `get` unchanged after the JSON round trip; a later
      `invalidate` makes `get` null again; a failing client's error is rethrown. */
  method RoundTripScenario(w: Weather, key: string)
    returns (miss: Result<Option<Json>>, ttl: nat, read: Option<Weather>,
             afterInvalidate: Result<Option<Json>>, failed: Result<Option<Json>>)
    ensures miss == Ok(None)
    ensures ttl == 300
    ensures read == Some(w)
    ensures afterInvalidate == Ok(None)
    ensures failed == Err(Failure("Redis get error"))
  {
    var trace := new Trace();
    var cache := new CacheRepository(trace, map[]);
    miss := cache.Get(Up, key);
    var stored := cache.Set(Up, key, ToJson(w));
    ttl := cache.entries[key].ttl;
    var hit := cache.Get(Up, key);
    read := if hit.Ok? && hit.value.Some? then FromJson(hit.value.value) else None;
    var gone := cache.Invalidate(Up, key);
    afterInvalidate := cache.Get(Up, key);
    failed := cache.Get(Down("Redis get error"), key);
  }
}
