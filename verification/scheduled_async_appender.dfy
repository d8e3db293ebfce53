/** LogDNAScheduledAsyncAppender: a subclass of the simple appender that
    queues enriched entries and lets a 200 ms scheduler tick ship them in
    batches through `createRequest`. Its `append` has no level test. */
module ScheduledAsyncAppender {
  import opened Wrappers
  import opened Events
  import opened LineEntries
  import opened Http
  import opened Batching
  import SimpleAppender

  /** The inherited settings and the queue with its tick lifecycle */
  datatype State = State(settings: SimpleAppender.Settings, batcher: Batcher)

  /** Construction: an empty queue and a scheduled tick */
  function New(settings: SimpleAppender.Settings): (st: State)
    ensures st.settings == settings
    ensures st.batcher.queue == [] && st.batcher.lifecycle == Running
  {
    State(settings, Started)
  }

  /** `append(event)`: enrich and offer; nothing is sent, nothing filtered */
  function Append(st: State, event: LogEvent, message: string): (r: State)
    ensures r.batcher.queue == st.batcher.queue + [CreateLineEntry(SimpleAppender.Enrich(st.settings), message, event)]
    ensures r.batcher.lifecycle == st.batcher.lifecycle
    ensures r.settings == st.settings
  {
    st.(batcher := Offer(st.batcher, CreateLineEntry(SimpleAppender.Enrich(st.settings), message, event)))
  }

  /** `onTick()`, `now` being the clock when the request is built: the new
      state and the request handed to the client, if any. */
  function OnTick(st: State, now: string): (r: (State, Option<Request<SimpleAppender.HttpUrl>>))
    ensures r.0.settings == st.settings
    ensures st.batcher.lifecycle == Running ==> r.0.batcher == Batcher([], Running)
    ensures st.batcher.lifecycle == Cancelled ==> r.0 == st
    ensures r.1.None? <==> st.batcher.lifecycle == Cancelled || |st.batcher.queue| == 0
    ensures r.1.Some? ==> r.1.value == SimpleAppender.CreateRequest(st.settings, Payload(st.batcher.queue), now)
    ensures r.1.Some? ==> r.1.value.body.lines == st.batcher.queue
  {
    var (b, out) := Tick(st.batcher);
    match out
    case None => (st.(batcher := b), None)
    case Some(payload) => (st.(batcher := b), Some(SimpleAppender.CreateRequest(st.settings, payload, now)))
  }

  /** `stop()`: the tick future is cancelled and the queue is not drained */
  function Stop(st: State): (r: State)
    ensures r.batcher.queue == st.batcher.queue
    ensures r.batcher.lifecycle == Cancelled
    ensures r.settings == st.settings
  {
    st.(batcher := Batching.Stop(st.batcher))
  }

  /** After `stop`, a tick sends nothing and leaves the queue as it is */
  lemma NoTickAfterStop(st: State, now: string)
    ensures OnTick(Stop(st), now).1 == None
    ensures OnTick(Stop(st), now).0.batcher.queue == st.batcher.queue
  {
  }

  /** A call into the appender: an event with its formatted message, a
      scheduler tick at a clock reading, or `stop` */
  datatype Call = AppendCall(event: LogEvent, message: string) | TickCall(now: string) | StopCall

  /** The state after one call and the request it sent, if any */
  function Perform(st: State, call: Call): (State, Option<Request<SimpleAppender.HttpUrl>>)
  {
    match call
    case AppendCall(e, m) => (Append(st, e, m), None)
    case TickCall(now) => OnTick(st, now)
    case StopCall => (Stop(st), None)
  }

  /** The requests one call sent: none or one */
  function Emitted(out: Option<Request<SimpleAppender.HttpUrl>>): seq<Request<SimpleAppender.HttpUrl>>
  {
    if out.Some? then [out.value] else []
  }

  /** The state after a sequence of calls and the requests sent, in order */
  function RunCalls(st: State, calls: seq<Call>): (State, seq<Request<SimpleAppender.HttpUrl>>)
    decreases |calls|
  {
    if |calls| == 0 then (st, [])
    else
      var first := Perform(st, calls[0]);
      var rest := RunCalls(first.0, calls[1..]);
      (rest.0, Emitted(first.1) + rest.1)
  }

  /** The entry one call appends, if it is an append */
  function Added(settings: SimpleAppender.Settings, call: Call): seq<LineEntry>
  {
    if call.AppendCall? then [CreateLineEntry(SimpleAppender.Enrich(settings), call.message, call.event)] else []
  }

  /** The entries the appended events become, in call order */
  function Entries(settings: SimpleAppender.Settings, calls: seq<Call>): seq<LineEntry>
  {
    if |calls| == 0 then [] else Added(settings, calls[0]) + Entries(settings, calls[1..])
  }

  /** All lines carried by a sequence of requests */
  function SentLines(sent: seq<Request<SimpleAppender.HttpUrl>>): seq<LineEntry>
  {
    if |sent| == 0 then [] else sent[0].body.lines + SentLines(sent[1..])
  }

  /** One call moves entries between the queue and the wire without losing
      or copying any. */
  lemma CallConservation(st: State, call: Call)
    ensures Perform(st, call).0.settings == st.settings
    ensures SentLines(Emitted(Perform(st, call).1)) + Perform(st, call).0.batcher.queue
         == st.batcher.queue + Added(st.settings, call)
  {
    var r := Perform(st, call);
    if r.1.Some? {
      assert SentLines(Emitted(r.1)) == r.1.value.body.lines + SentLines([]);
    }
  }

  /** Every appended event is either in exactly one sent request, at its
      place in append order, or still queued: the batches of successive ticks
      concatenate to the appended entries. */
  lemma {:induction false} NothingLostOrDuplicated(st: State, calls: seq<Call>)
    ensures SentLines(RunCalls(st, calls).1) + RunCalls(st, calls).0.batcher.queue
         == st.batcher.queue + Entries(st.settings, calls)
    decreases |calls|
  {
    if |calls| > 0 {
      var first := Perform(st, calls[0]);
      var now := Emitted(first.1);
      var rest := RunCalls(first.0, calls[1..]);
      assert RunCalls(st, calls) == (rest.0, now + rest.1);
      CallConservation(st, calls[0]);
      NothingLostOrDuplicated(first.0, calls[1..]);
      var later := Entries(st.settings, calls[1..]);
      assert Entries(first.0.settings, calls[1..]) == later;
      SentLinesSplit(now, rest.1);
      Chain(SentLines(now), SentLines(rest.1), st.batcher.queue, first.0.batcher.queue, rest.0.batcher.queue,
            Added(st.settings, calls[0]), later);
    }
  }

  lemma {:induction false} SentLinesSplit(xs: seq<Request<SimpleAppender.HttpUrl>>, ys: seq<Request<SimpleAppender.HttpUrl>>)
    ensures SentLines(xs + ys) == SentLines(xs) + SentLines(ys)
    decreases |xs|
  {
    if |xs| == 0 {
      assert xs + ys == ys;
    } else {
      assert (xs + ys)[0] == xs[0];
      assert (xs + ys)[1..] == xs[1..] + ys;
      SentLinesSplit(xs[1..], ys);
    }
  }
}
