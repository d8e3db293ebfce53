/** LogDNAAsyncAppender: a subclass of LogDNAAppender that queues enriched
    entries and lets a 200 ms scheduler tick ship them in batches through
    `sendHtmlRequest`. Its `append` has no level test. */
module AsyncAppender {
  import opened Wrappers
  import opened Events
  import opened LineEntries
  import opened Http
  import opened Batching
  import LogDnaAppender

  /** The inherited configuration and the queue with its tick lifecycle */
  datatype State = State(config: LogDnaAppender.Config, batcher: Batcher)

  /** Construction: an empty queue and a scheduled tick */
  function New(config: LogDnaAppender.Config): (st: State)
    ensures st.config == config
    ensures st.batcher.queue == [] && st.batcher.lifecycle == Running
  {
    State(config, Started)
  }

  /** `append(event)`: enrich and offer; nothing is sent, nothing filtered */
  function Append(st: State, event: LogEvent, message: string): (r: State)
    ensures r.batcher.queue == st.batcher.queue + [CreateLineEntry(LogDnaAppender.Enrich(st.config), message, event)]
    ensures r.batcher.lifecycle == st.batcher.lifecycle
    ensures r.config == st.config
  {
    st.(batcher := Offer(st.batcher, CreateLineEntry(LogDnaAppender.Enrich(st.config), message, event)))
  }

  /** `onTick()`: the new state and the request `sendHtmlRequest` sends, if
      any; `now` is the clock when the URL is built. */
  function OnTick(st: State, enc: LogDnaAppender.Encoder, now: string): (r: (State, Option<Request<string>>))
    ensures r.0.config == st.config
    ensures st.batcher.lifecycle == Running ==> r.0.batcher == Batcher([], Running)
    ensures st.batcher.lifecycle == Cancelled ==> r.0 == st
    ensures r.1.None? <==> st.batcher.lifecycle == Cancelled || |st.batcher.queue| == 0
    ensures r.1.Some? ==> r.1.value == LogDnaAppender.SendHtmlRequest(st.config, enc, Payload(st.batcher.queue), now)
    ensures r.1.Some? ==> r.1.value.body.lines == st.batcher.queue
  {
    var (b, out) := Tick(st.batcher);
    match out
    case None => (st.(batcher := b), None)
    case Some(payload) => (st.(batcher := b), Some(LogDnaAppender.SendHtmlRequest(st.config, enc, payload, now)))
  }

  /** `stop()`: the tick future is cancelled and the queue is not drained */
  function Stop(st: State): (r: State)
    ensures r.batcher.queue == st.batcher.queue
    ensures r.batcher.lifecycle == Cancelled
    ensures r.config == st.config
  {
    st.(batcher := Batching.Stop(st.batcher))
  }
}
