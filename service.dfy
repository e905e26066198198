/** `WeatherService`: the read-through lookup of weather for a location —
    cache, then store, then the external weather API — with the forced
    refresh that invalidates the cache entry and publishes a refresh event. */
module Service {
  import opened Wrappers
  import opened Text
  import opened Weather
  import opened Cache
  import opened Store
  import opened Broker
  import opened Calls

  /** The message of the error raised for any external failure but "not found". */
  const UPSTREAM_FAILURE: string := "Failed to fetch weather data from external source."

  /** `"weather:" + location.toLowerCase()`. */
  function CacheKey(location: string): (key: string)
    ensures |key| == 8 + |location| && key[..8] == "weather:"
    ensures forall i :: 0 <= i < |location| ==> key[8 + i] == LowerChar(location[i])
  {
    "weather:" + Lower(location)
  }

  /** Two locations share a cache entry exactly when they are the same name
      up to case, which is also when the store treats them as one location. */
  lemma CacheKeyIdentity(a: string, b: string)
    ensures CacheKey(a) == CacheKey(b) <==> SameIgnoringCase(a, b)
    ensures CacheKey(a) == CacheKey(b) <==> Lower(a) == Lower(b)
  {
    SameIgnoringCaseIsLowerEqual(a, b);
    if CacheKey(a) == CacheKey(b) {
      assert Lower(a) == CacheKey(a)[8..];
      assert Lower(b) == CacheKey(b)[8..];
    }
  }

  // ---------------------------------------------------------------------------
  // The external weather API, as an oracle

  datatype Condition = Condition(description: string)

  /** The part of the API's JSON answer that is read:
      `{name, main: {temp, humidity}, weather: [{description}], wind: {speed}}`. */
  datatype ApiBody = ApiBody(name: string, temp: real, humidity: real,
                             weather: seq<Condition>, windSpeed: real)

  /** How the HTTP call ended: an answer, an HTTP error status, or no response
      at all (network failure, timeout). */
  datatype ApiOutcome = Answered(body: ApiBody) | Rejected(status: int) | NoResponse

  /** `fetchWeatherFromExternalApi`: a record stamped `now` and tagged
      external for an answer, null for a 404, the upstream error otherwise —
      including an answer whose `weather` list is empty, where reading
      `weather[0].description` throws inside the `try`. */
  function FetchWeatherFromExternalApi(answer: ApiOutcome, now: Instant): (r: Result<Option<Weather>>)
    ensures (r.Ok? && r.value.Some?) <==> (answer.Answered? && |answer.body.weather| > 0)
    ensures r == Ok(None) <==> answer == Rejected(404)
    ensures r.Err? ==> r.error == Failure(UPSTREAM_FAILURE)
    ensures r.Ok? && r.value.Some? ==>
              var b := answer.body;
              r.value.value == Weather(b.name, b.temp, b.weather[0].description, b.humidity,
                                       b.windSpeed, now, FromExternal)
  {
    match answer
    case Answered(b) =>
      if |b.weather| == 0 then Err(Failure(UPSTREAM_FAILURE))
      else Ok(Some(Weather(b.name, b.temp, b.weather[0].description, b.humidity,
                           b.windSpeed, now, FromExternal)))
    case Rejected(status) =>
      if status == 404 then Ok(None) else Err(Failure(UPSTREAM_FAILURE))
    case NoResponse =>
      Err(Failure(UPSTREAM_FAILURE))
  }

  /** The HTTP client of the weather API. Each fetch is one call, logged in
      the shared trace; how it ends is the oracle `answer`. */
  class WeatherApi {
    const trace: Trace

    constructor (trace: Trace)
      ensures this.trace == trace
    {
      this.trace := trace;
    }

    /** `fetchWeatherFromExternalApi(location)`. */
    method Fetch(answer: ApiOutcome, now: Instant, location: string) returns (r: Result<Option<Weather>>)
      modifies trace
      ensures trace.calls == old(trace.calls) + [ExternalFetch(location)]
      ensures r == FetchWeatherFromExternalApi(answer, now)
    {
      trace.calls := trace.calls + [ExternalFetch(location)];
      r := FetchWeatherFromExternalApi(answer, now);
    }
  }

  // ---------------------------------------------------------------------------
  // The lookup as a function of the ports' state and of how each call ends

  /** How each port call of one lookup ends, and the two clock readings. */
  datatype World = World(
    cacheGet: Link,
    cacheInvalidate: Link,
    publish: Link,
    requestedAt: Instant,
    storeFind: Link,
    api: ApiOutcome,
    fetchedAt: Instant,
    storeUpsert: Link,
    cacheSet: Link)

  /** The state the lookup reads and changes: cache entries, store records,
      the broker's channel and the messages it was handed. */
  datatype Snapshot = Snapshot(
    cache: map<string, Entry>,
    store: map<string, Weather>,
    channelOpen: bool,
    sent: seq<Message>)

  /** The cache holds serialised weather records and the store is keyed by
      folded location. */
  predicate WellFormed(s: Snapshot)
  {
    && WellKeyed(s.store)
    && forall k :: k in s.cache ==> FromJson(s.cache[k].value).Some?
  }

  /** The calls made, in order, what the caller gets, and the state after. */
  datatype Run = Run(calls: seq<Call>, result: Result<Option<Weather>>, after: Snapshot)

  /** The run `run` preceded by the calls `first`. */
  function After(first: seq<Call>, run: Run): (r: Run)
    ensures r.result == run.result && r.after == run.after && r.calls == first + run.calls
  {
    run.(calls := first + run.calls)
  }

  /** Caching a serialised record keeps the cache well formed and touches only its key. */
  lemma CachePutKeepsWellFormed(s: Snapshot, key: string, record: Weather)
    requires WellFormed(s)
    ensures WellFormed(s.(cache := s.cache[key := Entry(ToJson(record), CACHE_TTL_SECONDS)]))
    ensures s.cache[key := Entry(ToJson(record), CACHE_TTL_SECONDS)] - {key} == s.cache - {key}
  {
    var c := s.cache[key := Entry(ToJson(record), CACHE_TTL_SECONDS)];
    assert c - {key} == s.cache - {key};
    forall k | k in c
      ensures FromJson(c[k].value).Some?
    {
      if k != key {
        assert c[k] == s.cache[k];
      }
    }
  }

  /** The messages after a forced refresh's publish call: the event, with
      the location as supplied, is appended when a channel is open and the
      send succeeds; otherwise they are as they were. */
  function Published(s: Snapshot, location: string, w: World): seq<Message>
  {
    if s.channelOpen && w.publish.Up? then s.sent + [Message(REFRESH_QUEUE, RefreshEvent(location, w.requestedAt))]
    else s.sent
  }

  /** `getWeatherData(location, forceRefresh)`. */
  function Plan(s: Snapshot, location: string, forceRefresh: bool, w: World): (run: Run)
    requires WellFormed(s)
    ensures WellFormed(run.after)
    ensures run.after.channelOpen == s.channelOpen
    ensures run.after.cache - {CacheKey(location)} == s.cache - {CacheKey(location)}
    ensures run.after.store - {Lower(location)} == s.store - {Lower(location)}
  {
    var key := CacheKey(location);
    if !forceRefresh then
      if w.cacheGet.Down? then
        Run([CacheGet(key)], Err(Failure(w.cacheGet.reason)), s)
      else if key in s.cache then
        Run([CacheGet(key)], Ok(Some(FromJson(s.cache[key].value).value.(source := FromCache))), s)
      else
        After([CacheGet(key)], Lookup(s, location, false, w))
    else if w.cacheInvalidate.Down? then
      Run([CacheInvalidate(key)], Err(Failure(w.cacheInvalidate.reason)), s)
    else
      After([CacheInvalidate(key), Publish(REFRESH_QUEUE, RefreshEvent(location, w.requestedAt))],
            Lookup(s.(cache := s.cache - {key}, sent := Published(s, location, w)), location, true, w))
  }

  /** The steps from the store query on. */
  function Lookup(s: Snapshot, location: string, forceRefresh: bool, w: World): (run: Run)
    requires WellFormed(s)
    ensures WellFormed(run.after)
    ensures run.after.channelOpen == s.channelOpen && run.after.sent == s.sent
    ensures run.after.cache - {CacheKey(location)} == s.cache - {CacheKey(location)}
    ensures run.after.store - {Lower(location)} == s.store - {Lower(location)}
  {
    var key := CacheKey(location);
    if w.storeFind.Down? then
      Run([StoreFind(location)], Err(Failure(w.storeFind.reason)), s)
    else if Find(s.store, location).Some? && !forceRefresh then
      var record := Find(s.store, location).value;
      var recache := [StoreFind(location), CacheSet(key, ToJson(record), CACHE_TTL_SECONDS)];
      if w.cacheSet.Down? then
        Run(recache, Err(Failure(w.cacheSet.reason)), s)
      else
        CachePutKeepsWellFormed(s, key, record);
        Run(recache, Ok(Some(record.(source := FromExternal))),
            s.(cache := s.cache[key := Entry(ToJson(record), CACHE_TTL_SECONDS)]))
    else
      After([StoreFind(location)], External(s, location, w))
  }

  /** The external fetch and what follows it. */
  function External(s: Snapshot, location: string, w: World): (run: Run)
    requires WellFormed(s)
    ensures WellFormed(run.after)
    ensures run.after.channelOpen == s.channelOpen && run.after.sent == s.sent
    ensures run.after.cache - {CacheKey(location)} == s.cache - {CacheKey(location)}
    ensures run.after.store - {Lower(location)} == s.store - {Lower(location)}
  {
    var answer := FetchWeatherFromExternalApi(w.api, w.fetchedAt);
    if answer.Err? then Run([ExternalFetch(location)], Err(answer.error), s)
    else if answer.value.None? then Run([ExternalFetch(location)], Ok(None), s)
    else After([ExternalFetch(location)], Save(s, location, answer.value.value, w))
  }

  /** The upsert of the fetched record, then caching it. */
  function Save(s: Snapshot, location: string, data: Weather, w: World): (run: Run)
    requires WellFormed(s)
    ensures WellFormed(run.after)
    ensures run.after.channelOpen == s.channelOpen && run.after.sent == s.sent
    ensures run.after.cache - {CacheKey(location)} == s.cache - {CacheKey(location)}
    ensures run.after.store - {Lower(location)} == s.store - {Lower(location)}
  {
    var key := CacheKey(location);
    if w.storeUpsert.Down? then
      Run([StoreUpsert(location, data)], Err(Failure(w.storeUpsert.reason)), s)
    else
      var s' := s.(store := Upserted(s.store, location, data));
      var saved := [StoreUpsert(location, data), CacheSet(key, ToJson(data), CACHE_TTL_SECONDS)];
      if w.cacheSet.Down? then
        Run(saved, Err(Failure(w.cacheSet.reason)), s')
      else
        CachePutKeepsWellFormed(s', key, data);
        Run(saved, Ok(Some(data)), s'.(cache := s'.cache[key := Entry(ToJson(data), CACHE_TTL_SECONDS)]))
  }
}

module ServiceProperties {
  import opened Wrappers
  import opened Text
  import opened Weather
  import opened Cache
  import opened Store
  import opened Broker
  import opened Calls
  import opened Service

  /** A cache hit without refresh: the cached record tagged `cache`, one call,
      nothing written, nothing published. */
  lemma CacheHitServesCache(s: Snapshot, location: string, w: World)
    requires WellFormed(s) && w.cacheGet.Up? && CacheKey(location) in s.cache
    ensures var run := Plan(s, location, false, w);
            && run.result == Ok(Some(FromJson(s.cache[CacheKey(location)].value).value.(source := FromCache)))
            && run.calls == [CacheGet(CacheKey(location))]
            && run.after == s
  {
  }

  /** A cache miss with a store hit and no refresh: the store's record is
      re-cached with the default TTL and returned tagged `external`; neither
      the external source nor the upsert is called. */
  lemma StoreHitRecaches(s: Snapshot, location: string, w: World)
    requires WellFormed(s) && w.cacheGet.Up? && CacheKey(location) !in s.cache
    requires w.storeFind.Up? && w.cacheSet.Up? && Find(s.store, location).Some?
    ensures var run := Plan(s, location, false, w);
            var key, record := CacheKey(location), Find(s.store, location).value;
            && run.result == Ok(Some(record.(source := FromExternal)))
            && run.calls == [CacheGet(key), StoreFind(location), CacheSet(key, ToJson(record), CACHE_TTL_SECONDS)]
            && run.after == s.(cache := s.cache[key := Entry(ToJson(record), CACHE_TTL_SECONDS)])
            && ExternalFetch(location) !in run.calls
  {
  }

  /** A call made from the store query on. */
  predicate StoreSide(c: Call)
  {
    c.StoreFind? || c.ExternalFetch? || c.StoreUpsert? || c.CacheSet?
  }

  /** The external step calls the API first and then only the store and the cache writer. */
  lemma ExternalCalls(s: Snapshot, location: string, w: World)
    requires WellFormed(s)
    ensures var run := External(s, location, w);
            && |run.calls| > 0 && run.calls[0] == ExternalFetch(location)
            && (forall i :: 1 <= i < |run.calls| ==> run.calls[i].StoreUpsert? || run.calls[i].CacheSet?)
            && forall c :: c in run.calls ==> StoreSide(c)
  {
    var answer := FetchWeatherFromExternalApi(w.api, w.fetchedAt);
    if answer.Ok? && answer.value.Some? {
      var data, key := answer.value.value, CacheKey(location);
      var upsert, cacheSet := StoreUpsert(location, data), CacheSet(key, ToJson(data), CACHE_TTL_SECONDS);
      var saved := Save(s, location, data, w).calls;
      assert saved == [upsert] || saved == [upsert, cacheSet];
      assert External(s, location, w).calls == [ExternalFetch(location)] + saved;
    }
  }

  /** The store step queries the store first and then makes only store-side calls. */
  lemma LookupCalls(s: Snapshot, location: string, forceRefresh: bool, w: World)
    requires WellFormed(s)
    ensures var run := Lookup(s, location, forceRefresh, w);
            && |run.calls| > 0 && run.calls[0] == StoreFind(location)
            && forall c :: c in run.calls ==> StoreSide(c)
  {
    if w.storeFind.Up? && !(Find(s.store, location).Some? && !forceRefresh) {
      ExternalCalls(s, location, w);
    }
  }

  /** A forced refresh first invalidates the key, then publishes exactly one
      event carrying the location as supplied, then queries the store; it
      never reads the cache. */
  lemma ForcedRefreshOrder(s: Snapshot, location: string, w: World)
    requires WellFormed(s) && w.cacheInvalidate.Up?
    ensures var run := Plan(s, location, true, w);
            var event := RefreshEvent(location, w.requestedAt);
            && |run.calls| >= 3
            && run.calls[..3] == [CacheInvalidate(CacheKey(location)), Publish(REFRESH_QUEUE, event), StoreFind(location)]
            && (forall i :: 0 <= i < |run.calls| && run.calls[i].Publish? ==> i == 1)
            && (forall c :: c in run.calls ==> !c.CacheGet?)
            && (forall i :: 0 <= i < |run.calls| && run.calls[i].CacheInvalidate? ==> i == 0)
            && run.after.sent == Published(s, location, w)
  {
    var key := CacheKey(location);
    var event := RefreshEvent(location, w.requestedAt);
    var s1 := s.(cache := s.cache - {key}, sent := Published(s, location, w));
    var tail := Lookup(s1, location, true, w);
    LookupCalls(s1, location, true, w);
    var calls := [CacheInvalidate(key), Publish(REFRESH_QUEUE, event)] + tail.calls;
    assert Plan(s, location, true, w).calls == calls;
    forall i | 2 <= i < |calls|
      ensures !calls[i].Publish? && !calls[i].CacheGet? && !calls[i].CacheInvalidate?
    {
      assert calls[i] == tail.calls[i - 2];
      assert tail.calls[i - 2] in tail.calls;
    }
    forall c | c in calls
      ensures !c.CacheGet?
    {
      if c !in [CacheInvalidate(key), Publish(REFRESH_QUEUE, event)] {
        assert c in tail.calls;
      }
    }
  }

  /** A forced refresh whose invalidation fails rethrows the cache's error
      before anything else happens: no event, no store query, no change. */
  lemma ForcedInvalidateFailureAborts(s: Snapshot, location: string, w: World)
    requires WellFormed(s) && w.cacheInvalidate.Down?
    ensures var run := Plan(s, location, true, w);
            && run.result == Err(Failure(w.cacheInvalidate.reason))
            && run.calls == [CacheInvalidate(CacheKey(location))]
            && run.after == s
  {
  }

  /** A forced refresh consults the external source whenever the store query
      succeeds, even when the store holds a record for the location. */
  lemma ForcedRefreshBypassesStore(s: Snapshot, location: string, w: World)
    requires WellFormed(s) && w.cacheInvalidate.Up? && w.storeFind.Up?
    ensures var run := Plan(s, location, true, w);
            |run.calls| >= 4 && run.calls[3] == ExternalFetch(location)
  {
  }

  /** Only a forced refresh publishes: otherwise the messages are unchanged
      and no publish call is made. */
  lemma EventsOnlyOnForcedRefresh(s: Snapshot, location: string, w: World)
    requires WellFormed(s)
    ensures Plan(s, location, false, w).after.sent == s.sent
    ensures forall c :: c in Plan(s, location, false, w).calls ==> !c.Publish?
  {
    var key := CacheKey(location);
    if w.cacheGet.Up? && key !in s.cache {
      LookupCalls(s, location, false, w);
      var tail := Lookup(s, location, false, w);
      assert Plan(s, location, false, w).calls == [CacheGet(key)] + tail.calls;
    }
  }

  /** The API answers with a usable record. */
  predicate FetchSucceeds(w: World)
  {
    w.api.Answered? && |w.api.body.weather| > 0
  }

  /** The lookup reaches the external source: with refresh once invalidation
      succeeds, without refresh on a cache miss and a store miss. */
  predicate ReachesExternal(s: Snapshot, location: string, forceRefresh: bool, w: World)
    requires WellKeyed(s.store)
  {
    && (if forceRefresh then w.cacheInvalidate.Up?
        else w.cacheGet.Up? && CacheKey(location) !in s.cache && Find(s.store, location).None?)
    && w.storeFind.Up?
  }

  /** The state when the external source is called: the cache entry is gone
      after a forced refresh, and the event may have been published. */
  function BeforeFetch(s: Snapshot, location: string, forceRefresh: bool, w: World): Snapshot
  {
    if forceRefresh then
      s.(cache := s.cache - {CacheKey(location)}, sent := Published(s, location, w))
    else s
  }

  /** The calls made before the external source is called. */
  function BeforeFetchCalls(location: string, forceRefresh: bool, w: World): seq<Call>
  {
    var key := CacheKey(location);
    if forceRefresh then
      [CacheInvalidate(key), Publish(REFRESH_QUEUE, RefreshEvent(location, w.requestedAt)), StoreFind(location)]
    else [CacheGet(key), StoreFind(location)]
  }

  /** A lookup that reaches the external source is the external step run on
      the state `BeforeFetch`, preceded by the calls `BeforeFetchCalls`. */
  lemma PlanAtExternal(s: Snapshot, location: string, forceRefresh: bool, w: World)
    requires WellFormed(s) && ReachesExternal(s, location, forceRefresh, w)
    ensures WellFormed(BeforeFetch(s, location, forceRefresh, w))
    ensures Plan(s, location, forceRefresh, w)
         == After(BeforeFetchCalls(location, forceRefresh, w), External(BeforeFetch(s, location, forceRefresh, w), location, w))
  {
    var s0 := BeforeFetch(s, location, forceRefresh, w);
    var ext := External(s0, location, w);
    var key := CacheKey(location);
    if forceRefresh {
      var first := [CacheInvalidate(key), Publish(REFRESH_QUEUE, RefreshEvent(location, w.requestedAt))];
      assert Plan(s, location, true, w) == After(first, Lookup(s0, location, true, w));
      AppendCalls(first, [StoreFind(location)], ext.calls);
    } else {
      AppendCalls([CacheGet(key)], [StoreFind(location)], ext.calls);
    }
  }

  /** The external step when the source answers and both writes succeed. */
  lemma ExternalSucceeds(s: Snapshot, location: string, w: World)
    requires WellFormed(s)
    requires w.api.Answered? && |w.api.body.weather| > 0
    requires w.storeUpsert.Up? && w.cacheSet.Up?
    ensures var data := FetchWeatherFromExternalApi(w.api, w.fetchedAt).value.value;
            var key := CacheKey(location);
            External(s, location, w) ==
              Run([ExternalFetch(location), StoreUpsert(location, data), CacheSet(key, ToJson(data), CACHE_TTL_SECONDS)],
                  Ok(Some(data)),
                  s.(store := Upserted(s.store, location, data),
                     cache := s.cache[key := Entry(ToJson(data), CACHE_TTL_SECONDS)]))
  {
  }

  /** External success: the record built from the answer, location as the API
      named it, is upserted under the literal location and then cached under
      the key, and it is what the caller gets. */
  lemma ExternalSuccessWritesStoreThenCache(s: Snapshot, location: string, forceRefresh: bool, w: World)
    requires WellFormed(s) && ReachesExternal(s, location, forceRefresh, w)
    requires w.api.Answered? && |w.api.body.weather| > 0
    requires w.storeUpsert.Up? && w.cacheSet.Up?
    ensures var run := Plan(s, location, forceRefresh, w);
            var data := FetchWeatherFromExternalApi(w.api, w.fetchedAt).value.value;
            var key := CacheKey(location);
            var s0 := BeforeFetch(s, location, forceRefresh, w);
            && data.location == w.api.body.name && data.source == FromExternal
            && run.result == Ok(Some(data))
            && run.calls[|run.calls| - 3..] == [ExternalFetch(location), StoreUpsert(location, data), CacheSet(key, ToJson(data), CACHE_TTL_SECONDS)]
            && run.after == s0.(store := Upserted(s.store, location, data),
                                cache := s0.cache[key := Entry(ToJson(data), CACHE_TTL_SECONDS)])
            && (forall q :: SameIgnoringCase(q, location) ==> Find(run.after.store, q) == Some(Stored(location, data)))
            && (Find(s.store, location).None? ==> |run.after.store| == |s.store| + 1)
            && (Find(s.store, location).Some? ==> |run.after.store| == |s.store|)
  {
    var data := FetchWeatherFromExternalApi(w.api, w.fetchedAt).value.value;
    var s0 := BeforeFetch(s, location, forceRefresh, w);
    PlanAtExternal(s, location, forceRefresh, w);
    ExternalSucceeds(s0, location, w);
    var tail := External(s0, location, w).calls;
    var calls := BeforeFetchCalls(location, forceRefresh, w) + tail;
    assert calls[|calls| - 3..] == tail;
    UpsertCount(s.store, location, data);
    forall q | SameIgnoringCase(q, location)
      ensures Find(Upserted(s.store, location, data), q) == Some(Stored(location, data))
    {
      FindAfterUpsert(s.store, location, data, q);
    }
  }

  /** A 404 from the external source: null, and neither the store nor the
      cache is written. */
  lemma ExternalNotFoundWritesNothing(s: Snapshot, location: string, forceRefresh: bool, w: World)
    requires WellFormed(s) && ReachesExternal(s, location, forceRefresh, w)
    requires w.api == Rejected(404)
    ensures var run := Plan(s, location, forceRefresh, w);
            && run.result == Ok(None)
            && run.after == BeforeFetch(s, location, forceRefresh, w)
            && run.calls[|run.calls| - 1] == ExternalFetch(location)
  {
  }

  /** Any other external failure: the fixed upstream error, and neither the
      store nor the cache is written. */
  lemma ExternalFailureWritesNothing(s: Snapshot, location: string, forceRefresh: bool, w: World)
    requires WellFormed(s) && ReachesExternal(s, location, forceRefresh, w)
    requires w.api != Rejected(404) && !(w.api.Answered? && |w.api.body.weather| > 0)
    ensures var run := Plan(s, location, forceRefresh, w);
            && run.result == Err(Failure(UPSTREAM_FAILURE))
            && run.after == BeforeFetch(s, location, forceRefresh, w)
            && run.calls[|run.calls| - 1] == ExternalFetch(location)
  {
  }

  /** A cache read that fails rethrows the cache's error: one call, no change. */
  lemma CacheGetFailureAborts(s: Snapshot, location: string, w: World)
    requires WellFormed(s) && w.cacheGet.Down?
    ensures var run := Plan(s, location, false, w);
            && run.result == Err(Failure(w.cacheGet.reason))
            && run.calls == [CacheGet(CacheKey(location))]
            && run.after == s
  {
  }

  /** A store query that fails rethrows the store's error: it is the last
      call, and the state is what it was when the store was queried. */
  lemma StoreFindFailureAborts(s: Snapshot, location: string, forceRefresh: bool, w: World)
    requires WellFormed(s) && w.storeFind.Down?
    requires if forceRefresh then w.cacheInvalidate.Up? else w.cacheGet.Up? && CacheKey(location) !in s.cache
    ensures var run := Plan(s, location, forceRefresh, w);
            && run.result == Err(Failure(w.storeFind.reason))
            && run.calls == BeforeFetchCalls(location, forceRefresh, w)
            && run.calls[|run.calls| - 1] == StoreFind(location)
            && run.after == BeforeFetch(s, location, forceRefresh, w)
  {
  }

  /** A store hit whose re-caching fails rethrows the cache's error after the
      cache write was attempted, and changes nothing. */
  lemma RecacheFailureAborts(s: Snapshot, location: string, w: World)
    requires WellFormed(s) && w.cacheGet.Up? && CacheKey(location) !in s.cache
    requires w.storeFind.Up? && Find(s.store, location).Some? && w.cacheSet.Down?
    ensures var run := Plan(s, location, false, w);
            var key, record := CacheKey(location), Find(s.store, location).value;
            && run.result == Err(Failure(w.cacheSet.reason))
            && run.calls == [CacheGet(key), StoreFind(location), CacheSet(key, ToJson(record), CACHE_TTL_SECONDS)]
            && run.after == s
  {
  }

  /** A failed upsert after a successful fetch rethrows the store's error:
      the upsert is the last call, and neither the store nor the cache is written. */
  lemma UpsertFailureAborts(s: Snapshot, location: string, forceRefresh: bool, w: World)
    requires WellFormed(s) && ReachesExternal(s, location, forceRefresh, w)
    requires FetchSucceeds(w) && w.storeUpsert.Down?
    ensures var run := Plan(s, location, forceRefresh, w);
            && run.result == Err(Failure(w.storeUpsert.reason))
            && run.calls == BeforeFetchCalls(location, forceRefresh, w)
                            + [ExternalFetch(location), StoreUpsert(location, Fetched(w))]
            && run.after == BeforeFetch(s, location, forceRefresh, w)
  {
    PlanAtExternal(s, location, forceRefresh, w);
    var tail := [ExternalFetch(location), StoreUpsert(location, Fetched(w))];
    assert External(BeforeFetch(s, location, forceRefresh, w), location, w).calls == tail;
  }

  /** A cache write that fails after the upsert rethrows the cache's error
      with the store already written: the store holds the fetched record,
      the cache entry stays as it was before the fetch. */
  lemma CacheSetFailureAfterUpsert(s: Snapshot, location: string, forceRefresh: bool, w: World)
    requires WellFormed(s) && ReachesExternal(s, location, forceRefresh, w)
    requires FetchSucceeds(w) && w.storeUpsert.Up? && w.cacheSet.Down?
    ensures var run := Plan(s, location, forceRefresh, w);
            var data, key := Fetched(w), CacheKey(location);
            && run.result == Err(Failure(w.cacheSet.reason))
            && run.calls == BeforeFetchCalls(location, forceRefresh, w)
                            + [ExternalFetch(location), StoreUpsert(location, data), CacheSet(key, ToJson(data), CACHE_TTL_SECONDS)]
            && run.after == BeforeFetch(s, location, forceRefresh, w).(store := Upserted(s.store, location, data))
  {
    PlanAtExternal(s, location, forceRefresh, w);
    var data, key := Fetched(w), CacheKey(location);
    var tail := [ExternalFetch(location), StoreUpsert(location, data), CacheSet(key, ToJson(data), CACHE_TTL_SECONDS)];
    assert External(BeforeFetch(s, location, forceRefresh, w), location, w).calls == tail;
  }

  /** A run with the broker's state replaced by that of `b`. */
  function WithBroker(run: Run, b: Snapshot): Run
  {
    run.(after := run.after.(channelOpen := b.channelOpen, sent := b.sent))
  }

  /** Publishing never decides the outcome: with or without a channel, and
      whether or not the send fails, the lookup returns the same result,
      makes the same calls and leaves the same cache and store. */
  lemma PublishFailureIsSwallowed(s: Snapshot, location: string, forceRefresh: bool, w: World, send: Link, channel: bool)
    requires WellFormed(s)
    ensures var a := Plan(s, location, forceRefresh, w);
            var b := Plan(s.(channelOpen := channel), location, forceRefresh, w.(publish := send));
            && a.result == b.result && a.calls == b.calls
            && a.after.cache == b.after.cache && a.after.store == b.after.store
  {
    var key := CacheKey(location);
    var wb := w.(publish := send);
    if forceRefresh && w.cacheInvalidate.Up? {
      var sa := s.(cache := s.cache - {key}, sent := Published(s, location, w));
      var sb := s.(channelOpen := channel).(cache := s.cache - {key},
                   sent := Published(s.(channelOpen := channel), location, wb));
      LookupIgnoresBroker(sa, sb, location, true, w, wb);
    } else if !forceRefresh && w.cacheGet.Up? && key !in s.cache {
      LookupIgnoresBroker(s, s.(channelOpen := channel), location, false, w, wb);
    }
  }

  /** From the store query on, the broker's state and the publish link play no part. */
  lemma LookupIgnoresBroker(sa: Snapshot, sb: Snapshot, location: string, forceRefresh: bool, wa: World, wb: World)
    requires WellFormed(sa) && WellFormed(sb) && sa.cache == sb.cache && sa.store == sb.store
    requires wb == wa.(publish := wb.publish)
    ensures Lookup(sb, location, forceRefresh, wb) == WithBroker(Lookup(sa, location, forceRefresh, wa), sb)
  {
    if wa.storeFind.Up? && !(Find(sa.store, location).Some? && !forceRefresh) {
      ExternalIgnoresBroker(sa, sb, location, wa, wb);
    }
  }

  /** From the external fetch on, likewise. */
  lemma ExternalIgnoresBroker(sa: Snapshot, sb: Snapshot, location: string, wa: World, wb: World)
    requires WellFormed(sa) && WellFormed(sb) && sa.cache == sb.cache && sa.store == sb.store
    requires wb == wa.(publish := wb.publish)
    ensures External(sb, location, wb) == WithBroker(External(sa, location, wa), sb)
  {
    var answer := FetchWeatherFromExternalApi(wa.api, wa.fetchedAt);
    if answer.Ok? && answer.value.Some? {
      SaveIgnoresBroker(sa, sb, location, answer.value.value, wa, wb);
    }
  }

  /** From the upsert on, likewise. */
  lemma SaveIgnoresBroker(sa: Snapshot, sb: Snapshot, location: string, data: Weather, wa: World, wb: World)
    requires WellFormed(sa) && WellFormed(sb) && sa.cache == sb.cache && sa.store == sb.store
    requires wb == wa.(publish := wb.publish)
    ensures Save(sb, location, data, wb) == WithBroker(Save(sa, location, data, wa), sb)
  {
    var key := CacheKey(location);
    var store := Upserted(sa.store, location, data);
    var entry := Entry(ToJson(data), CACHE_TTL_SECONDS);
    if wa.storeUpsert.Up? && wa.cacheSet.Up? {
      assert Save(sa, location, data, wa).after == sa.(store := store, cache := sa.cache[key := entry]);
      assert Save(sb, location, data, wb).after == sb.(store := store, cache := sb.cache[key := entry]);
    } else if wa.storeUpsert.Up? {
      assert Save(sa, location, data, wa).after == sa.(store := store);
      assert Save(sb, location, data, wb).after == sb.(store := store);
    }
  }

  // ---------------------------------------------------------------------------
  // Repeated forced refreshes

  /** Every cache and store call of a forced refresh succeeds and the API
      answers with a record; the broker may do anything. */
  predicate StoreSideHealthy(w: World)
  {
    && w.cacheInvalidate.Up? && w.storeFind.Up? && w.storeUpsert.Up? && w.cacheSet.Up?
    && FetchSucceeds(w)
  }

  /** Every call of a forced refresh succeeds and the API answers with a record. */
  predicate Healthy(w: World)
  {
    StoreSideHealthy(w) && w.publish.Up?
  }

  /** The record the API's answer yields when it answers with one. */
  function Fetched(w: World): Weather
    requires FetchSucceeds(w)
  {
    FetchWeatherFromExternalApi(w.api, w.fetchedAt).value.value
  }

  /** The state after one forced refresh per world, in order. */
  function RefreshRepeatedly(s: Snapshot, location: string, worlds: seq<World>): (s': Snapshot)
    requires WellFormed(s)
    ensures WellFormed(s')
    decreases |worlds|
  {
    if worlds == [] then s
    else RefreshRepeatedly(Plan(s, location, true, worlds[0]).after, location, worlds[1..])
  }

  /** One healthy forced refresh: one event appended, one record upserted. */
  lemma HealthyRefresh(s: Snapshot, location: string, w: World)
    requires WellFormed(s) && s.channelOpen && Healthy(w)
    ensures var after := Plan(s, location, true, w).after;
            && after.channelOpen
            && after.sent == s.sent + [Message(REFRESH_QUEUE, RefreshEvent(location, w.requestedAt))]
            && after.store == Upserted(s.store, location, Fetched(w))
  {
    ExternalSuccessWritesStoreThenCache(s, location, true, w);
  }

  /** One forced refresh whose cache and store calls succeed upserts the
      fetched record, whatever the broker does. */
  lemma RefreshUpserts(s: Snapshot, location: string, w: World)
    requires WellFormed(s) && StoreSideHealthy(w)
    ensures Plan(s, location, true, w).after.store == Upserted(s.store, location, Fetched(w))
    ensures Plan(s, location, true, w).after.store.Keys == s.store.Keys + {Lower(location)}
    ensures Find(Plan(s, location, true, w).after.store, location) == Some(Stored(location, Fetched(w)))
  {
    ExternalSuccessWritesStoreThenCache(s, location, true, w);
    UpsertCount(s.store, location, Fetched(w));
    FindAfterUpsert(s.store, location, Fetched(w), location);
  }

  /** The invalidation and the publish of a forced refresh succeed. */
  predicate PublishSucceeds(w: World)
  {
    w.cacheInvalidate.Up? && w.publish.Up?
  }

  /** A forced refresh whose invalidation and publish succeed on an open
      channel appends exactly its event, whatever the store and the API do. */
  lemma RefreshPublishes(s: Snapshot, location: string, w: World)
    requires WellFormed(s) && s.channelOpen && PublishSucceeds(w)
    ensures var after := Plan(s, location, true, w).after;
            && after.channelOpen
            && after.sent == s.sent + [Message(REFRESH_QUEUE, RefreshEvent(location, w.requestedAt))]
  {
    ForcedRefreshOrder(s, location, w);
  }

  /** Repeating a forced refresh whose invalidation and publish succeed
      publishes one event per refresh, in order, after the messages already
      sent, whatever the store and the API do afterwards. */
  lemma {:induction false} RepeatedRefreshPublishes(s: Snapshot, location: string, worlds: seq<World>)
    requires WellFormed(s) && s.channelOpen
    requires forall i :: 0 <= i < |worlds| ==> PublishSucceeds(worlds[i])
    ensures var s' := RefreshRepeatedly(s, location, worlds);
            && s'.channelOpen
            && s'.sent == s.sent + RefreshMessages(location, worlds)
    decreases |worlds|
  {
    if worlds != [] {
      var w := worlds[0];
      RefreshPublishes(s, location, w);
      var s1 := Plan(s, location, true, w).after;
      var rest := worlds[1..];
      assert forall i :: 0 <= i < |rest| ==> PublishSucceeds(rest[i]) by {
        forall i | 0 <= i < |rest| ensures PublishSucceeds(rest[i]) { assert rest[i] == worlds[i + 1]; }
      }
      RepeatedRefreshPublishes(s1, location, rest);
      var m := Message(REFRESH_QUEUE, RefreshEvent(location, w.requestedAt));
      assert RefreshRepeatedly(s, location, worlds) == RefreshRepeatedly(s1, location, rest);
      assert RefreshMessages(location, worlds) == [m] + RefreshMessages(location, rest);
      assert s.sent + [m] + RefreshMessages(location, rest) == s.sent + ([m] + RefreshMessages(location, rest));
    }
  }

  /** The refresh events, one per world, in order. */
  function RefreshMessages(location: string, worlds: seq<World>): (ms: seq<Message>)
    ensures |ms| == |worlds|
  {
    if worlds == [] then []
    else [Message(REFRESH_QUEUE, RefreshEvent(location, worlds[0].requestedAt))] + RefreshMessages(location, worlds[1..])
  }

  /** Repeating a forced refresh whose cache and store calls succeed upserts
      the same identity each time, with or without a channel and whether or
      not publishing fails: the store gains at most the one record for the
      location, and that record holds the last fetch under the literal location. */
  lemma {:induction false} RepeatedRefreshUpserts(s: Snapshot, location: string, worlds: seq<World>)
    requires WellFormed(s)
    requires forall i :: 0 <= i < |worlds| ==> StoreSideHealthy(worlds[i])
    ensures worlds != [] ==> FetchSucceeds(worlds[|worlds| - 1])
    ensures var s' := RefreshRepeatedly(s, location, worlds);
            && s'.store.Keys == (if worlds == [] then s.store.Keys else s.store.Keys + {Lower(location)})
            && (worlds != [] ==> Find(s'.store, location) == Some(Stored(location, Fetched(worlds[|worlds| - 1]))))
    decreases |worlds|
  {
    if worlds != [] {
      var w := worlds[0];
      RefreshUpserts(s, location, w);
      var s1 := Plan(s, location, true, w).after;
      var rest := worlds[1..];
      assert forall i :: 0 <= i < |rest| ==> rest[i] == worlds[i + 1];
      RepeatedRefreshUpserts(s1, location, rest);
      assert RefreshRepeatedly(s, location, worlds) == RefreshRepeatedly(s1, location, rest);
    }
  }
}

module ServiceClass {
  import opened Wrappers
  import opened Weather
  import opened Cache
  import opened Store
  import opened Broker
  import opened Calls
  import opened Service

  /** The service object, holding the two repositories, the broker and the
      API client it drives, which all log their calls in one trace. */
  class WeatherService {
    const cache: CacheRepository
    const store: WeatherRepository
    const broker: Broker
    const api: WeatherApi
    /** The trace every port appends its calls to. */
    const trace: Trace

    constructor (cache: CacheRepository, store: WeatherRepository, broker: Broker, api: WeatherApi)
      requires cache.trace == store.trace == broker.trace == api.trace
      requires WellFormed(Snapshot(cache.entries, store.records, broker.channelOpen, broker.sent))
      ensures this.cache == cache && this.store == store && this.broker == broker && this.api == api
      ensures trace == cache.trace
      ensures Valid()
    {
      this.cache := cache;
      this.store := store;
      this.broker := broker;
      this.api := api;
      this.trace := cache.trace;
    }

    /** The state of the ports, as the lookup sees it. */
    ghost function Snap(): Snapshot
      reads this, cache, store, broker
    {
      Snapshot(cache.entries, store.records, broker.channelOpen, broker.sent)
    }

    ghost predicate Valid()
      reads this, cache, store, broker
    {
      && cache.trace == trace && store.trace == trace && broker.trace == trace && api.trace == trace
      && WellFormed(Snap())
    }

    /** `getWeatherData(location, forceRefresh = false)`: the calls the ports
        record, what it returns and the state it leaves are those of `Plan`. */
    method GetWeatherData(w: World, location: string, forceRefresh: bool := false)
      returns (r: Result<Option<Weather>>)
      requires Valid()
      modifies cache, store, broker, trace
      ensures Valid()
      ensures var run := Plan(old(Snap()), location, forceRefresh, w);
              && r == run.result
              && trace.calls == old(trace.calls) + run.calls
              && Snap() == run.after
    {
      if forceRefresh {
        r := Refresh(w, location);
      } else {
        r := ReadThrough(w, location);
      }
    }

    /** The lookup without a forced refresh: the cache first. */
    method ReadThrough(w: World, location: string) returns (r: Result<Option<Weather>>)
      requires Valid()
      modifies cache, store, broker, trace
      ensures Valid()
      ensures var run := Plan(old(Snap()), location, false, w);
              && r == run.result
              && trace.calls == old(trace.calls) + run.calls
              && Snap() == run.after
    {
      ghost var s0 := Snap();
      var key := CacheKey(location);
      var cached := cache.Get(w.cacheGet, key);
      if cached.Err? {
        return Err(cached.error);
      }
      if cached.value.Some? {
        var record := FromJson(cached.value.value);
        assert record.Some?;
        return Ok(Some(record.value.(source := FromCache)));
      }
      assert Plan(s0, location, false, w) == After([CacheGet(key)], Lookup(s0, location, false, w));
      ghost var t1 := trace.calls;
      r := LookupStep(w, location, false);
      ghost var tail := Lookup(s0, location, false, w).calls;
      AppendCalls(old(trace.calls), [CacheGet(key)], tail);
    }

    /** The forced refresh: invalidate the entry and publish the event, then
        query the store and fetch. */
    method Refresh(w: World, location: string) returns (r: Result<Option<Weather>>)
      requires Valid()
      modifies cache, store, broker, trace
      ensures Valid()
      ensures var run := Plan(old(Snap()), location, true, w);
              && r == run.result
              && trace.calls == old(trace.calls) + run.calls
              && Snap() == run.after
    {
      ghost var s0 := Snap();
      var invalidated := Announce(w, location);
      if invalidated.Fail? {
        return Err(invalidated.error);
      }
      ghost var s1, t1 := Snap(), trace.calls;
      r := LookupStep(w, location, true);
      ghost var tail := Lookup(s1, location, true, w).calls;
      AppendCalls(old(trace.calls), [CacheInvalidate(CacheKey(location)), Publish(REFRESH_QUEUE, RefreshEvent(location, w.requestedAt))], tail);
    }

    /** The first two steps of a forced refresh: the cache entry is
        invalidated, and only when that succeeds the refresh event, with the
        location as supplied, is published. */
    method Announce(w: World, location: string) returns (invalidated: Outcome)
      requires Valid()
      modifies cache, broker, trace
      ensures Valid()
      ensures w.cacheInvalidate.Down? ==>
                && invalidated == Fail(Failure(w.cacheInvalidate.reason))
                && trace.calls == old(trace.calls) + [CacheInvalidate(CacheKey(location))]
                && Snap() == old(Snap())
      ensures w.cacheInvalidate.Up? ==>
                && invalidated == Pass
                && trace.calls == old(trace.calls) + [CacheInvalidate(CacheKey(location)),
                                                      Publish(REFRESH_QUEUE, RefreshEvent(location, w.requestedAt))]
                && Snap() == old(Snap()).(cache := old(Snap()).cache - {CacheKey(location)},
                                          sent := Published(old(Snap()), location, w))
    {
      ghost var s0 := Snap();
      var key := CacheKey(location);
      invalidated := cache.Invalidate(w.cacheInvalidate, key);
      if invalidated.Fail? {
        return;
      }
      broker.Publish(w.publish, REFRESH_QUEUE, RefreshEvent(location, w.requestedAt));
      assert Snap() == s0.(cache := s0.cache - {key}, sent := Published(s0, location, w));
    }

    /** The steps from the store query on, as `Lookup` describes them. */
    method LookupStep(w: World, location: string, forceRefresh: bool) returns (r: Result<Option<Weather>>)
      requires Valid()
      modifies cache, store, trace
      ensures Valid()
      ensures var run := Lookup(old(Snap()), location, forceRefresh, w);
              && r == run.result
              && trace.calls == old(trace.calls) + run.calls
              && Snap() == run.after
    {
      ghost var s0, t0 := Snap(), trace.calls;
      var key := CacheKey(location);
      var dbData := store.FindByLocation(w.storeFind, location);
      if dbData.Err? {
        return Err(dbData.error);
      }
      if dbData.value.Some? && !forceRefresh {
        var record := dbData.value.value;
        assert Find(s0.store, location) == Some(record);
        var recached := cache.Set(w.cacheSet, key, ToJson(record));
        assert trace.calls == t0 + [StoreFind(location), CacheSet(key, ToJson(record), CACHE_TTL_SECONDS)];
        if recached.Fail? {
          return Err(recached.error);
        }
        return Ok(Some(record.(source := FromExternal)));
      }
      ghost var t1 := trace.calls;
      r := ExternalStep(w, location);
      ghost var tail := External(s0, location, w).calls;
      AppendCalls(t0, [StoreFind(location)], tail);
    }

    /** The external fetch and what follows it, as `External` describes them. */
    method ExternalStep(w: World, location: string) returns (r: Result<Option<Weather>>)
      requires Valid()
      modifies cache, store, trace
      ensures Valid()
      ensures var run := External(old(Snap()), location, w);
              && r == run.result
              && trace.calls == old(trace.calls) + run.calls
              && Snap() == run.after
    {
      ghost var s0 := Snap();
      var weatherData := api.Fetch(w.api, w.fetchedAt, location);
      if weatherData.Err? || weatherData.value.None? {
        return weatherData;
      }
      var data := weatherData.value.value;
      ghost var tail := Save(s0, location, data, w).calls;
      r := SaveStep(w, location, data);
      AppendCalls(old(trace.calls), [ExternalFetch(location)], tail);
    }

    /** The upsert of the fetched record, then caching it, as `Save` describes them. */
    method SaveStep(w: World, location: string, data: Weather) returns (r: Result<Option<Weather>>)
      requires Valid()
      modifies cache, store, trace
      ensures Valid()
      ensures var run := Save(old(Snap()), location, data, w);
              && r == run.result
              && trace.calls == old(trace.calls) + run.calls
              && Snap() == run.after
    {
      var key := CacheKey(location);
      var saved := store.Upsert(w.storeUpsert, location, data);
      if saved.Err? {
        return Err(saved.error);
      }
      var cachedNew := cache.Set(w.cacheSet, key, ToJson(data));
      assert trace.calls == old(trace.calls) + [StoreUpsert(location, data), CacheSet(key, ToJson(data), CACHE_TTL_SECONDS)];
      if cachedNew.Fail? {
        return Err(cachedNew.error);
      }
      r := Ok(Some(data));
    }
  }
}
