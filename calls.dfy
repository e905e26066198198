/** The calls the lookup makes into its ports, and the log they are recorded
    in. Every port object shares one `Trace`, and each of its methods appends
    the call it answers, so the order of calls across ports is observable. */
module Calls {
  import opened Weather

  /** The refresh event's body: the location exactly as the caller supplied
      it and the instant of the refresh request. */
  datatype RefreshEvent = RefreshEvent(location: string, timestamp: Instant)

  /** One call into a port, with its arguments. */
  datatype Call =
    | CacheGet(key: string)
    | CacheInvalidate(key: string)
    | Publish(queue: string, event: RefreshEvent)
    | StoreFind(location: string)
    | ExternalFetch(location: string)
    | StoreUpsert(location: string, data: Weather)
    | CacheSet(key: string, value: Json, ttl: nat)

  /** Calls recorded in two steps are the calls of both steps recorded at once. */
  lemma AppendCalls(log: seq<Call>, first: seq<Call>, rest: seq<Call>)
    ensures log + first + rest == log + (first + rest)
  {
  }

  /** The calls made so far, oldest first. */
  class Trace {
    ghost var calls: seq<Call>

    constructor ()
      ensures calls == []
    {
      calls := [];
    }
  }
}
