# Weather lookup facade — a Dafny model

This project models the weather lookup path of the `api-services` process of
weather-mini-project. An HTTP handler validates the `location` and `refresh`
query parameters and calls `WeatherService.getWeatherData`. That lookup reads
through three layers: the Redis cache (key `weather:<lowercased location>`,
TTL 300 s), then the MongoDB store (case-insensitive, whole-string match on
the location), then the OpenWeather API. A fetched record is upserted under
the literal location and cached again. With `refresh=true` the lookup first
deletes the cache entry and publishes a refresh event to the durable queue
`weather_refresh_events`, and it then fetches from the API even when the
store has a record.

The modules follow the source files:

- `Wrappers`: `Option`, `Result`, `Outcome`, and `Link`, which says whether a
  call into a client (Redis, MongoDB, the AMQP channel) succeeds or throws.
- `Calls`: the calls the lookup makes into its ports, with their arguments,
  and the ghost `Trace` they are logged in. Every port object holds the same
  trace and appends each call it answers, failed calls included.
- `Text`: ASCII `toLowerCase` and the anchored case-insensitive match
  `/^q$/i`.
- `Weather`: the `IWeather` record and the JSON tree stored in Redis, with
  its encoder and decoder.
- `Cache`: `CacheRepository` as a class over a map from key to
  (serialised value, TTL).
- `Store`: `WeatherRepository` as a class over a map keyed by the lowercased
  location, so there is at most one document per lowercased name. The
  unique index on `location` is case-sensitive and does not ensure this;
  upsert's case-insensitive filter (weather.repository.ts:17-18) does, as
  long as the collection is written only by upserts, one at a time.
- `Broker`: `publishToQueue` as a class with the "channel open" flag and the
  log of messages sent.
- `Service`: the cache key, the mapping of the external call's outcome, the
  API client object that logs each fetch, and the lookup as a pure function
  `Plan`. `Plan` takes the ports' state and
  how each port call ends, and gives the calls made (in order, with their
  arguments), the result, and the new state.
- `ServiceProperties`: lemmas about `Plan`, one per branch, plus
  properties over repeated forced refreshes.
- `ServiceClass`: the `WeatherService` class. Its methods call the
  repository, broker and API objects in the source's order. They are proved
  to return `Plan`'s result and to leave `Plan`'s new state. The calls that
  the port objects themselves log in the shared trace are proved to be
  exactly `Plan`'s calls, so an extra or a missing port call would break the
  proof.
- `Controller`: `getWeatherByLocation` as a pure function from the query and
  the service's outcome to a response.
- `Scenarios`: the controller composed with `Plan`, over four requests: a
  cached location, an unknown location, a forced refresh and a missing
  location.

How each port call ends is a parameter of the model, and so are the two
clock readings (the refresh event's time and the fetched record's time).
The `World` datatype holds them all. The external API is such a parameter
too (`ApiOutcome`): an answer body, an HTTP error status, or no response.

Two behaviours of the forced refresh, as the code has them:

- On a forced refresh, the cache invalidation is awaited and its error is
  rethrown. It is not best-effort: `ForcedInvalidateFailureAborts` proves
  that the lookup stops there.
- On a forced refresh the store is still queried, and a store error is
  rethrown. Only a found record is ignored.

`humidity` is a plain `number` in `IWeather` (weather.interface.ts:14); it is
an opaque `real` here.

## Model

| member | source | states |
|---|---|---|
| Text.SameIgnoringCaseIsLowerEqual | api-services/src/repositories/weather.repository.ts:13 | two locations match case-insensitively as whole strings exactly when their lowercased forms are equal (both directions) |
| Service.CacheKey | api-services/src/services/weather.service.ts:58 | the key is `weather:` followed by the location, each character lowercased, with the same length |
| Service.CacheKeyIdentity | api-services/src/services/weather.service.ts:58 | two locations share a cache key exactly when they are the same location ignoring case, which is when the store treats them as one |
| Service.FetchWeatherFromExternalApi | api-services/src/services/weather.service.ts:28-55 | a record exactly for an answer whose `weather` list is non-empty, null exactly for a 404, otherwise the fixed upstream error; the record takes the API's name, temperature, first description, humidity, wind speed, the fetch time, and source `external` |
| Weather.ToJson | api-services/src/repositories/cache.repository.ts:22-41 | what `set` serialises, `get` parses back unchanged: `FromJson(ToJson(w)) == Some(w)` for every record |
| Weather.SourceFromName | api-services/src/interfaces/weather.interface.ts:17 | a source name decodes to exactly the provenance tag that is written under that name |
| Cache.CacheRepository.Get | api-services/src/repositories/cache.repository.ts:22-30 | the stored value for a present key, null for an absent one, the client's error rethrown; the call is appended to the trace |
| Cache.CacheRepository.Set | api-services/src/repositories/cache.repository.ts:32-41 | writes (or overwrites) the key with the value and the TTL, 300 by default; every other key is unchanged; on a client error, the error is rethrown and nothing is written; the call, with its TTL, is appended to the trace |
| Cache.CacheRepository.Invalidate | api-services/src/repositories/cache.repository.ts:43-51 | deletes the key, so a later get is null, and nothing else; on a client error, the error is rethrown and nothing is deleted; the call is appended to the trace |
| Cache.RoundTripScenario | api-services/src/repositories/cache.repository.ts:22-51 | on an empty cache `get` is null; `set` with the default TTL records 300; `get` then reads back a value that decodes to the record written; after `invalidate`, `get` is null again; a failing client's error is rethrown |
| Store.FindMatchesIgnoringCase | api-services/src/repositories/weather.repository.ts:12-14 | the keyed lookup finds a stored record whose whole location equals the query ignoring case (never a longer name containing it), and finds nothing exactly when no stored record matches |
| Store.WeatherRepository.FindByLocation | api-services/src/repositories/weather.repository.ts:12-14 | the case-insensitive whole-string match, or null when none exists; the client's error is rethrown; the query is appended to the trace |
| Store.Stored | api-services/src/repositories/weather.repository.ts:19 | the stored document carries the literal location argument in place of the data's own location; all other schema fields are the data's, and the tag is `external` |
| Store.Upserted | api-services/src/repositories/weather.repository.ts:16-23 | after an upsert the store is still one record per lowercased location, the location's entry is the stored document, and every other location's record is unchanged |
| Store.UpsertCount | api-services/src/repositories/weather.repository.ts:17-21 | an upsert adds exactly one record when no casing of the location is stored, and otherwise replaces one in place without changing the count |
| Store.OneRecordPerLocation | api-services/src/repositories/weather.repository.ts:17-18 | two stored records whose locations match ignoring case are the same record, which upsert's case-insensitive filter keeps true |
| Store.FindAfterUpsert | api-services/src/repositories/weather.repository.ts:13-20 | after `upsert(loc, d)`, a lookup by any casing of `loc` returns `d` with location `loc`, and a lookup of any other location returns what it returned before |
| Store.WeatherRepository.Upsert | api-services/src/repositories/weather.repository.ts:16-23 | returns the stored document and updates the store as `Upserted`; on a client error, the error is rethrown and the store is unchanged; the call is appended to the trace |
| Broker.Broker.Publish | api-services/src/config/rabbitmq.ts:35-46 | appends the message when a channel exists and the send succeeds; otherwise does nothing; never fails its caller; the publish call is appended to the trace either way |
| Service.WeatherApi.Fetch | api-services/src/services/weather.service.ts:28-55 | one HTTP call, appended to the trace, whose result is `FetchWeatherFromExternalApi` of the answer |
| Service.Plan | api-services/src/services/weather.service.ts:57-99 | the lookup keeps the cache holding decodable records and the store keyed by lowercased location; it changes no cache key but this location's, and no store record but this location's |
| Service.Lookup | api-services/src/services/weather.service.ts:76-99 | from the store query on, the same invariants and frame, with the event log untouched |
| Service.External | api-services/src/services/weather.service.ts:84-98 | from the external fetch on, the same invariants and frame |
| Service.Save | api-services/src/services/weather.service.ts:88-96 | the upsert and re-cache keep the invariants and touch only this location's key and record |
| ServiceProperties.CacheHitServesCache | api-services/src/services/weather.service.ts:61-66 | a non-forced cache hit returns the cached record tagged `cache`, makes only the cache read, changes nothing and publishes nothing |
| ServiceProperties.StoreHitRecaches | api-services/src/services/weather.service.ts:76-82 | a non-forced cache miss with a store hit re-caches the store's record with the default TTL and returns it tagged `external`; no external call and no upsert |
| ServiceProperties.ExternalCalls | api-services/src/services/weather.service.ts:84-98 | the external step calls the API once, first, and after it makes only the upsert and the cache write |
| ServiceProperties.LookupCalls | api-services/src/services/weather.service.ts:76-98 | the store step begins with the store query and then makes only store-side calls (no cache read, no invalidation, no publish) |
| ServiceProperties.ForcedRefreshOrder | api-services/src/services/weather.service.ts:67-76 | a forced refresh invalidates the key, then publishes exactly one event with the location as supplied, then queries the store; no cache read is made at all, the invalidation is the only one and comes first, and the event is logged when a channel exists and the send succeeds |
| ServiceProperties.ForcedInvalidateFailureAborts | api-services/src/services/weather.service.ts:67-69 | an invalidation error is rethrown before anything else: no publish, no store query, no change |
| ServiceProperties.ForcedRefreshBypassesStore | api-services/src/services/weather.service.ts:76-86 | on a forced refresh the API is called right after a successful store query, whatever the store holds |
| ServiceProperties.EventsOnlyOnForcedRefresh | api-services/src/services/weather.service.ts:61-73 | without a forced refresh, no publish call is made and the event log is unchanged |
| ServiceProperties.PlanAtExternal | api-services/src/services/weather.service.ts:57-86 | a lookup that reaches the API is the external step on the state after invalidation and publishing, preceded by exactly the cache, publish and store calls of its path |
| ServiceProperties.ExternalSucceeds | api-services/src/services/weather.service.ts:86-98 | with a usable answer and both writes succeeding, the external step calls the API, upserts, caches, and returns the fetched record |
| ServiceProperties.ExternalSuccessWritesStoreThenCache | api-services/src/services/weather.service.ts:86-98 | on external success the last three calls are fetch, `upsert(location, data)` and `set(key, data, 300)`; the caller gets `data`, which carries the API-reported name and source `external`; the store finds the record under any casing; and the store grows by one exactly when the location was new |
| ServiceProperties.ExternalNotFoundWritesNothing | api-services/src/services/weather.service.ts:86-98 | a 404 from the API returns null, and the API call is the last call: no upsert and no cache write |
| ServiceProperties.ExternalFailureWritesNothing | api-services/src/services/weather.service.ts:48-54 | any other API failure raises the fixed upstream error, and the API call is the last call: no upsert and no cache write |
| ServiceProperties.CacheGetFailureAborts | api-services/src/services/weather.service.ts:62 | a failing cache read rethrows its error after that one call, with nothing changed |
| ServiceProperties.StoreFindFailureAborts | api-services/src/services/weather.service.ts:76 | a failing store query rethrows its error, is the last call, and leaves the state as it was when the store was queried |
| ServiceProperties.RecacheFailureAborts | api-services/src/services/weather.service.ts:80 | on a store hit, a failing re-cache rethrows its error after the three calls, with nothing changed |
| ServiceProperties.UpsertFailureAborts | api-services/src/services/weather.service.ts:90 | a failing upsert after a successful fetch rethrows its error, is the last call, and neither the store nor the cache is written |
| ServiceProperties.CacheSetFailureAfterUpsert | api-services/src/services/weather.service.ts:90-94 | a cache write that fails after the upsert rethrows its error with the store already holding the fetched record and the cache entry as it was before the fetch |
| ServiceProperties.PublishFailureIsSwallowed | api-services/src/config/rabbitmq.ts:35-46 | with or without a channel, and whether or not the send fails, the lookup returns the same result, makes the same calls, and leaves the same cache and store |
| ServiceProperties.LookupIgnoresBroker | api-services/src/services/weather.service.ts:76-98 | from the store query on, the broker's state and the publish outcome play no part |
| ServiceProperties.ExternalIgnoresBroker | api-services/src/services/weather.service.ts:84-98 | from the external fetch on, the broker's state and the publish outcome play no part |
| ServiceProperties.SaveIgnoresBroker | api-services/src/services/weather.service.ts:88-96 | from the upsert on, the broker's state and the publish outcome play no part |
| ServiceProperties.HealthyRefresh | api-services/src/services/weather.service.ts:67-98 | one successful forced refresh appends one event and upserts the fetched record |
| ServiceProperties.RefreshPublishes | api-services/src/services/weather.service.ts:67-73 | a forced refresh whose invalidation and publish succeed on an open channel appends exactly its event and keeps the channel, whatever the store and the API do |
| ServiceProperties.RepeatedRefreshPublishes | api-services/src/services/weather.service.ts:72 | repeated forced refreshes whose invalidation and publish succeed, on an open channel, publish one event per refresh, in order, after the messages already sent, whatever the store and the API do afterwards |
| ServiceProperties.RefreshUpserts | api-services/src/services/weather.service.ts:86-90 | a forced refresh whose cache and store calls succeed leaves the store upserted with the fetched record, with the location's lowercased key added and the stored document found under it, whatever the channel and the send do |
| ServiceProperties.RepeatedRefreshUpserts | api-services/src/services/weather.service.ts:90 | repeated forced refreshes whose cache and store calls succeed add at most the one record for the location (no duplicates), and that record holds the last fetch under the literal location; with or without a channel, and whatever the sends do |
| ServiceClass.WeatherService.GetWeatherData | api-services/src/services/weather.service.ts:57-99 | the result and the new state of the cache, store and broker objects are those of `Plan`; the calls the ports log during the method are exactly `Plan`'s calls, in order; the invariants are kept |
| ServiceClass.WeatherService.ReadThrough | api-services/src/services/weather.service.ts:58-66 | the non-forced path matches `Plan` without refresh: result, new state, and the calls the ports log (so a cache hit makes no store query and no API call) |
| ServiceClass.WeatherService.Refresh | api-services/src/services/weather.service.ts:67-73 | the forced path matches `Plan` with refresh: result, new state, and the calls the ports log |
| ServiceClass.WeatherService.Announce | api-services/src/services/weather.service.ts:67-73 | the invalidation, logged; on its error, nothing else and no change; otherwise the publish, logged, the key removed and the event appended as the channel and the send decide |
| ServiceClass.WeatherService.LookupStep | api-services/src/services/weather.service.ts:76-82 | the store query and the re-cache on a hit match `Lookup`: result, new state, and the calls the ports log |
| ServiceClass.WeatherService.ExternalStep | api-services/src/services/weather.service.ts:84-98 | the API call and what follows match `External`: result, new state, and the calls the ports log (so the API is called exactly once) |
| ServiceClass.WeatherService.SaveStep | api-services/src/services/weather.service.ts:88-96 | the upsert and the cache write match `Save`: result, new state, and the calls the ports log |
| Controller.ForceRefresh | api-services/src/controllers/weather.controller.ts:27 | the refresh flag is true exactly when `refresh` is the single string `"true"` |
| Controller.Handle | api-services/src/controllers/weather.controller.ts:19-41 | a missing, empty or non-string location gets 400 with the fixed message and no service call; otherwise the service is called once with the location and the refresh flag; a record gets 200 with `success: true` and the data; null gets 404 with the fixed message; an error is handed to `next` with no response written |
| Scenarios.Serve | api-services/src/controllers/weather.controller.ts:19-30 | the service is called exactly when the location is valid |
| Scenarios.CachedLocationAnswers200 | api-services/src/controllers/weather.controller.ts:30-33 | a live cache entry without `refresh=true` answers 200 with the entry tagged `cache` |
| Scenarios.UnknownLocationAnswers404 | api-services/src/controllers/weather.controller.ts:34-35 | a cache miss, a store miss and a 404 from the API answer 404, with nothing written |
| Scenarios.ForcedRefreshAnswers200 | api-services/src/controllers/weather.controller.ts:27-33 | `refresh=true` with every call succeeding answers 200 with the fetched record tagged `external`, publishes one event with the location as supplied, and re-sets the cache entry |
| Scenarios.MissingLocationAnswers400 | api-services/src/controllers/weather.controller.ts:22-25 | a missing or empty location answers 400 without calling the service |

## Left out

- Connection bootstrap and teardown are not modelled: the MongoDB, Redis and AMQP connection code, `connectRabbitMQ`, `closeRabbitMQ`, and both processes' entry points. They are process lifecycle and client I/O. A client that throws is modelled as a `Down` link.
- Logging, configuration loading, route wiring and the Express error handler are not modelled. They hold no decisions of the lookup. A delegated error is the end of the model's request.
- The email worker is not modelled. Its consume/ack/nack loop is in `connectRabbitMQConsumer`, which email-worker/src/app.ts:8 imports but none of the repository's files defines: email-worker/src/config/rabbitmq.ts defines only connect, get and close. `sendEmailNotification` is only a timed log message.
- The axios request (URL, API key, query parameters, units) is not modelled. The API is a parameter giving an answer body, an HTTP status, or no response.
- Malformed API bodies are not modelled, except an empty `weather` list, which is modelled as the upstream failure. A missing `main` or `wind` would also throw.
- Temperature, humidity and wind speed are treated as opaque numbers. No arithmetic is done on them, and floating point is not modelled.
- Clock readings are abstract natural numbers, supplied as parameters. The JSON form writes the timestamp as a number. The source writes an ISO string, which `JSON.parse` leaves a string, so a record read from the cache carries a string timestamp there.
- The JSON text layer (`JSON.stringify` and `JSON.parse`) is abstracted to a JSON tree. Key order and number formatting are not modelled.
- `CacheRepository.get` is generic and casts the parsed value unchecked. The model's service invariant is that every cache entry decodes to a record. It does not model a foreign or malformed value under a `weather:` key, nor an empty stored string, which the source reads as a miss.
- Redis expiry is not modelled. The TTL is recorded with each entry, but entries never expire by time in the model. Redis's refusal of a TTL of 0 in `set` is not modelled either.
- `findByLocation` and `upsert` build an unescaped regular expression from the location. The model treats the location as a plain name, so a name containing `.`, `*` or `(` is not modelled (it could match other names or throw).
- Case folding is ASCII only. `toLowerCase` and the `i` flag also fold other scripts.
- MongoDB's `_id`, `__v` and `setDefaultsOnInsert` are not modelled. The schema has no `source` field, so MongoDB drops the tag. The model stores `external` instead, which is the tag the service attaches to every store read.
- Store.WeatherRepository.constructor: requires a collection with at most one document per lowercased location. The schema's case-sensitive unique index would also allow "Paris" and "paris" side by side; the model assumes the collection is written only by `upsert`, one call at a time.
- Concurrency is not modelled: concurrent lookups, the last-write-wins upsert race, and the missing single-flight deduplication of refreshes. The model is sequential, one lookup at a time.
- Service.Plan: its own contract states only the invariants and the frame. What each branch returns, calls and writes, the error branches included, is stated by the `ServiceProperties` lemmas; the class methods are proved equal to `Plan` in result, new state and logged calls.
