/** `publishToQueue`: fire-and-forget publication of refresh events. */
module Broker {
  import opened Wrappers
  import opened Calls

  /** The durable queue that forced refreshes publish to. */
  const REFRESH_QUEUE: string := "weather_refresh_events"

  datatype Message = Message(queue: string, event: RefreshEvent)

  class Broker {
    /** Whether a channel was opened at start-up. */
    var channelOpen: bool
    /** The messages handed to the broker, oldest first. */
    var sent: seq<Message>
    /** The log each publish call is appended to. */
    const trace: Trace

    constructor (trace: Trace, channelOpen: bool)
      ensures this.trace == trace && this.channelOpen == channelOpen && sent == []
    {
      this.trace := trace;
      this.channelOpen := channelOpen;
      sent := [];
    }

    /** Publishes when a channel exists and the send succeeds; otherwise it
        does nothing. It never fails its caller. */
    method Publish(send: Link, queue: string, event: RefreshEvent)
      modifies this, trace
      ensures trace.calls == old(trace.calls) + [Call.Publish(queue, event)]
      ensures channelOpen == old(channelOpen)
      ensures old(channelOpen) && send.Up? ==> sent == old(sent) + [Message(queue, event)]
      ensures !old(channelOpen) || send.Down? ==> sent == old(sent)
    {
      trace.calls := trace.calls + [Call.Publish(queue, event)];
      if !channelOpen {
        return;
      }
      if send.Up? {
        sent := sent + [Message(queue, event)];
      }
    }
  }
}
