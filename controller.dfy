/** `WeatherController.getWeatherByLocation`: from the query string and the
    service's outcome to the HTTP response. */
module Controller {
  import opened Wrappers
  import opened Weather

  const LOCATION_REQUIRED: string := "Location query parameter is required."
  const LOCATION_NOT_FOUND: string := "Weather data for the specified location not found."

  /** A query-string parameter as Express parses it: absent, one string, a
      repeated parameter (an array) or a bracketed one (an object). */
  datatype Param = Missing | Single(text: string) | Repeated(values: seq<string>) | Nested

  datatype Query = Query(location: Param, refresh: Param)

  /** The JSON envelope: `{success: true, data}` or `{success: false, error}`. */
  datatype Body = SuccessBody(data: Weather) | FailureBody(error: string) {
    function Success(): bool { SuccessBody? }
  }

  /** A response written by the controller, or the error handed to `next`. */
  datatype Response = Reply(status: int, body: Body) | Delegated(error: Failure)

  /** The arguments the controller calls the service with. */
  datatype ServiceCall = ServiceCall(location: string, forceRefresh: bool)

  /** What one request does: at most one service call, then one response. */
  datatype Handling = Handling(call: Option<ServiceCall>, response: Response)

  /** `location` is usable when it is a single non-empty string. */
  predicate ValidLocation(p: Param)
  {
    p.Single? && p.text != ""
  }

  /** `refresh === 'true'`. */
  function ForceRefresh(p: Param): (force: bool)
    ensures force <==> p == Single("true")
  {
    match p
    case Single(t) => t == "true"
    case _ => false
  }

  /** The handler, given what the service would answer for the call it makes. */
  function Handle(q: Query, outcome: Result<Option<Weather>>): (h: Handling)
    ensures h.call.Some? <==> ValidLocation(q.location)
    ensures !ValidLocation(q.location) ==> h.response == Reply(400, FailureBody(LOCATION_REQUIRED))
    ensures h.call.Some? ==> h.call.value == ServiceCall(q.location.text, q.refresh == Single("true"))
    ensures h.call.Some? && outcome.Ok? && outcome.value.Some? ==>
              h.response == Reply(200, SuccessBody(outcome.value.value))
    ensures h.call.Some? && outcome == Ok(None) ==> h.response == Reply(404, FailureBody(LOCATION_NOT_FOUND))
    ensures h.call.Some? && outcome.Err? ==> h.response == Delegated(outcome.error)
    ensures h.response.Reply? ==> (h.response.body.Success() <==> h.response.status == 200)
  {
    if !ValidLocation(q.location) then
      Handling(None, Reply(400, FailureBody(LOCATION_REQUIRED)))
    else
      var call := ServiceCall(q.location.text, ForceRefresh(q.refresh));
      match outcome
      case Ok(Some(data)) => Handling(Some(call), Reply(200, SuccessBody(data)))
      case Ok(None) => Handling(Some(call), Reply(404, FailureBody(LOCATION_NOT_FOUND)))
      case Err(e) => Handling(Some(call), Delegated(e))
  }
}

/** Requests answered end to end: the controller over the service's lookup. */
module Scenarios {
  import opened Wrappers
  import opened Text
  import opened Weather
  import opened Cache
  import opened Store
  import opened Broker
  import opened Calls
  import opened Service
  import opened ServiceProperties
  import opened Controller

  /** The handler driving the lookup it calls. */
  function Serve(q: Query, s: Snapshot, w: World): (h: Handling)
    requires WellFormed(s)
    ensures h.call.Some? <==> ValidLocation(q.location)
  {
    if ValidLocation(q.location) then
      Handle(q, Plan(s, q.location.text, ForceRefresh(q.refresh), w).result)
    else
      Handle(q, Ok(None))
  }

  /** A live cache entry without `refresh=true`: 200 with the entry tagged `cache`. */
  lemma CachedLocationAnswers200(location: string, refresh: Param, s: Snapshot, w: World)
    requires WellFormed(s) && location != "" && refresh != Single("true")
    requires w.cacheGet.Up? && CacheKey(location) in s.cache
    ensures var cached := FromJson(s.cache[CacheKey(location)].value).value;
            Serve(Query(Single(location), refresh), s, w).response == Reply(200, SuccessBody(cached.(source := FromCache)))
  {
    CacheHitServesCache(s, location, w);
  }

  /** Not in the cache, not in the store, and a 404 from the API: 404, and no
      write to the store or the cache. */
  lemma UnknownLocationAnswers404(location: string, s: Snapshot, w: World)
    requires WellFormed(s) && location != ""
    requires w.cacheGet.Up? && CacheKey(location) !in s.cache
    requires w.storeFind.Up? && Find(s.store, location).None? && w.api == Rejected(404)
    ensures Serve(Query(Single(location), Missing), s, w).response == Reply(404, FailureBody(LOCATION_NOT_FOUND))
    ensures Plan(s, location, false, w).after == s
  {
    ExternalNotFoundWritesNothing(s, location, false, w);
  }

  /** `refresh=true` with a healthy API: 200 tagged `external`, the entry
      invalidated and re-set, one event with the location as supplied. */
  lemma ForcedRefreshAnswers200(location: string, s: Snapshot, w: World)
    requires WellFormed(s) && location != "" && s.channelOpen && Healthy(w)
    ensures var run := Plan(s, location, true, w);
            && Serve(Query(Single(location), Single("true")), s, w).response == Reply(200, SuccessBody(Fetched(w)))
            && Fetched(w).source == FromExternal
            && run.after.sent == s.sent + [Message(REFRESH_QUEUE, RefreshEvent(location, w.requestedAt))]
            && run.after.cache[CacheKey(location)] == Entry(ToJson(Fetched(w)), CACHE_TTL_SECONDS)
  {
    ExternalSuccessWritesStoreThenCache(s, location, true, w);
  }

  /** A missing location never reaches the service. */
  lemma MissingLocationAnswers400(refresh: Param, s: Snapshot, w: World)
    requires WellFormed(s)
    ensures Serve(Query(Missing, refresh), s, w) == Handling(None, Reply(400, FailureBody(LOCATION_REQUIRED)))
    ensures Serve(Query(Single(""), refresh), s, w) == Handling(None, Reply(400, FailureBody(LOCATION_REQUIRED)))
  {
  }
}
