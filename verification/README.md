# LogDNA Log4j2 appender — a Dafny model

This project models the pure logic of a Log4j2 appender family that ships log
events to the LogDNA ingestion service (`https://logs.logdna.com/logs/ingest`).
It covers the following pieces:

- **Line-entry enrichment** (`createLineEntry`). The two synchronous appenders
  carry identical copies of it, so it is defined once, in `LineEntries`. An
  event becomes a record with `timestamp`, `level`, `app`, `line` and `meta`.
  The `line` text is the formatted message. When stack traces are enabled and
  a throwable is attached, one blank-line-prefixed block follows for the top
  throwable and one for each link of its cause chain. `meta` holds `logger`,
  and MDC entries are merged over it when MDC support is on.
- **LogDNASimpleAppender** (`SimpleAppender`): the level test in `append`, the
  comma-joined tags, and the request `createRequest` builds. That request has a
  structured URL with query parameters hostname, tags (optional) and now, plus
  fixed headers.
- **LogDNAAppender** (`LogDnaAppender`): the synchronous appender with no level
  test. Its URL is assembled as text from the encoded hostname and time. Its
  `encode` falls back to the raw text.
- **LogDNAScheduledAsyncAppender / LogDNAAsyncAppender**
  (`ScheduledAsyncAppender`, `AsyncAppender`, sharing `Batching`). `append`
  enqueues. A scheduler tick drains the queue in FIFO order and sends one
  payload holding the whole batch, or nothing when the batch is empty. `stop`
  cancels future ticks and does not drain.
- **LogDNAAppenderBuilder** (`AppenderBuilder`): field defaults, one setter per
  field, and `build`, which dispatches on `async`.

The model is purely functional. Events, throwable proxies, line entries,
payloads and requests are immutable datatypes. The queue and the tick
lifecycle form a small state record, and each call is one atomic step of a
sequential run. These are inputs rather than computations:

- the formatted message (the layout's output);
- the level name;
- the logger name;
- each cause proxy's rendered stack trace;
- the current time as decimal text;
- the local host lookup, as an `Option`;
- the URL encoder, as a function value plus a "charset supported" flag.

The header of the top-throwable block prints `throwable.getClass()`. That is
the class of the proxy object, whatever exception it wraps, so the model
uses the constant `class org.apache.logging.log4j.core.impl.ThrowableProxy`.
A null throwable message is appended as `null`.

Where the code's behaviour differs from what its names suggest, the model
follows the code:

- The simple appender's level test drops an event when
  `event.intLevel <= minimal.intLevel`. Lower ranks are more severe, so with
  the default INFO threshold it drops FATAL, ERROR, WARN and INFO and keeps
  DEBUG and TRACE. This is the opposite of what the name *minimal level*
  suggests. The model keeps the comparison as written.
  `SimpleAppender.DefaultLevelKeepsOnlyVerbose` states the consequence for
  INFO, and `SimpleAppender.SentLevelsAreUpwardClosed` states it for every
  threshold: once a rank is sent, every higher (more verbose) rank is sent too.
- The asynchronous appenders apply no level test at all, although the
  scheduled one inherits a minimal level from the simple appender.
- The top block names the proxy's class, not the class of the wrapped
  exception. Each cause block is the cause proxy's full rendered cause stack
  trace.
- `LogDNAAppender` and `LogDNAAsyncAppender` never send a tags parameter.
- `build` does not check the fields marked `@Required`: unset fields are passed
  on as null (`None` here).

## Model

| member | source | states |
|---|---|---|
| Events.Causes | src/main/java/eu/mizerak/alemiz/LogDNASimpleAppender.java:84-88 | The cause walk visits the proxy chain in order; each visited proxy's cause is the next one, and the walk stops exactly at the first absent cause |
| LineEntries.ExceptionBlocks | src/main/java/eu/mizerak/alemiz/LogDNASimpleAppender.java:80-89 | For a throwable with N cause links there are exactly N+1 blocks: the top block first, then one block per cause in chain order |
| LineEntries.CauseTextIsBlocks | src/main/java/eu/mizerak/alemiz/LogDNASimpleAppender.java:84-88 | The text the cause loop appends equals the concatenation of the per-link blocks of the chain |
| LineEntries.ThrownText | src/main/java/eu/mizerak/alemiz/LogDNASimpleAppender.java:79-89 | With stack traces on and a throwable attached, the line is the message, the top block, then the cause walk's text; equivalently the message plus all exception blocks |
| LineEntries.BuildLineText | src/main/java/eu/mizerak/alemiz/LogDNASimpleAppender.java:79-95 | The StringBuilder loop produces the specified line text; with stack traces off or no throwable the line is exactly the formatted message |
| LineEntries.Meta | src/main/java/eu/mizerak/alemiz/LogDNASimpleAppender.java:97-104 | `meta` always has `logger`; it is exactly {logger} when MDC support is off or the context is empty; otherwise its keys are logger plus the context keys, every context entry wins, and `logger` keeps the logger name unless the context has a `logger` key |
| LineEntries.EnumeratedMap | src/main/java/eu/mizerak/alemiz/LogDNASimpleAppender.java:100-102 | Replaying a map's entry set, each key once and in any order, rebuilds exactly that map |
| LineEntries.AddProperties | src/main/java/eu/mizerak/alemiz/LogDNASimpleAppender.java:99-103 | The entry-by-entry `addProperty` loop over the context yields the union of the base meta and the context, context winning, for every iteration order |
| LineEntries.CreateLineEntry | src/main/java/eu/mizerak/alemiz/LogDNASimpleAppender.java:78-106 | timestamp is the event's epoch milliseconds, level the level name, app the configured app name, line the composed text, meta the composed map (LogDNAAppender.java:60-88 is an identical copy) |
| LineEntries.ExampleEntry | src/main/java/eu/mizerak/alemiz/LogDNASimpleAppender.java:91-104 | An ERROR event "boom" at 1700000000000 with MDC reqId=42, app "svc" and MDC support on, becomes timestamp 1700000000000, level ERROR, app svc, line boom, meta {logger, reqId=42} |
| Strings.SplitJoin | src/main/java/eu/mizerak/alemiz/LogDNASimpleAppender.java:42 | Splitting the comma join of a non-empty, comma-free list gives the list back |
| Strings.JoinSplit | src/main/java/eu/mizerak/alemiz/LogDNASimpleAppender.java:42 | Joining the pieces of any string split at commas gives the string back |
| SimpleAppender.JoinTags | src/main/java/eu/mizerak/alemiz/LogDNASimpleAppender.java:42 | The stored tags are absent exactly when the array is null |
| SimpleAppender.TagsRoundTrip | src/main/java/eu/mizerak/alemiz/LogDNASimpleAppender.java:42 | A non-empty array of comma-free tags is recovered from the stored joined string |
| SimpleAppender.NewSettings | src/main/java/eu/mizerak/alemiz/LogDNASimpleAppender.java:35-45 | The constructor stores every argument unchanged except the tags, which are stored joined |
| SimpleAppender.QueryParamsLookup | src/main/java/eu/mizerak/alemiz/LogDNASimpleAppender.java:114-118 | Query parameters are named hostname, tags, now in that order, tags only when present; looking each name up returns the hostname, the joined tags (absent when null) and the time |
| SimpleAppender.CreateRequest | src/main/java/eu/mizerak/alemiz/LogDNASimpleAppender.java:108-127 | The request goes to https, host logs.logdna.com, path logs/ingest, with those query parameters, headers apikey=token, the fixed User-Agent and Accept application/json, a JSON body and the given payload |
| SimpleAppender.Append | src/main/java/eu/mizerak/alemiz/LogDNASimpleAppender.java:56-76 | No request exactly when the event's rank is at most the minimal level's rank; otherwise one request whose `lines` has exactly one entry, the enriched event |
| SimpleAppender.DefaultLevelKeepsOnlyVerbose | src/main/java/eu/mizerak/alemiz/LogDNASimpleAppender.java:57 | With the INFO threshold, FATAL, ERROR, WARN and INFO events are dropped and DEBUG and TRACE events are sent |
| SimpleAppender.SentLevelsAreUpwardClosed | src/main/java/eu/mizerak/alemiz/LogDNASimpleAppender.java:57 | For every threshold, an event is sent exactly when its rank exceeds the threshold's; if one event is sent, every event of a higher (more verbose) rank is sent too, and if one is dropped, every event of a lower or equal rank is dropped too |
| LogDnaAppender.Encode | src/main/java/eu/mizerak/alemiz/LogDNAAppender.java:109-115 | With the charset unsupported the input comes back unchanged; otherwise it is the URL encoder's output |
| LogDnaAppender.UrlShape | src/main/java/eu/mizerak/alemiz/LogDNAAppender.java:93 | The URL is the ingest address, `?`, and the `&`-join of `hostname=`+encoded hostname and `now=`+encoded time |
| LogDnaAppender.UrlParameters | src/main/java/eu/mizerak/alemiz/LogDNAAppender.java:93 | Parsed back, the query has exactly the parameters hostname and now, in order, with the encoded values, and no tags parameter, when the encoded texts hold no `&` |
| LogDnaAppender.SendHtmlRequest | src/main/java/eu/mizerak/alemiz/LogDNAAppender.java:90-98 | The request carries that URL, the headers apikey=token, the fixed User-Agent and Accept application/json, a JSON body and the payload |
| LogDnaAppender.Append | src/main/java/eu/mizerak/alemiz/LogDNAAppender.java:47-58 | No level test: every event yields exactly one request whose `lines` has exactly one entry, the enriched event |
| Batching.Offer | src/main/java/eu/mizerak/alemiz/LogDNAScheduledAsyncAppender.java:49 | Offering puts the entry at the tail and leaves the lifecycle alone |
| Batching.Poll | src/main/java/eu/mizerak/alemiz/LogDNAScheduledAsyncAppender.java:55 | Polling answers nothing exactly on an empty queue, and otherwise the head and the rest, which together form the queue |
| Batching.DrainAll | src/main/java/eu/mizerak/alemiz/LogDNAScheduledAsyncAppender.java:53-57 | The poll loop returns every queued entry in FIFO order and leaves the queue empty |
| Batching.Tick | src/main/java/eu/mizerak/alemiz/LogDNAScheduledAsyncAppender.java:52-66 | A cancelled tick does nothing; a running tick empties the queue, sends nothing exactly when the drain is empty, and otherwise one payload whose lines are the whole batch |
| Batching.Stop | src/main/java/eu/mizerak/alemiz/LogDNAScheduledAsyncAppender.java:83-87 | Stopping cancels the ticks and leaves the queue as it is |
| Batching.Conservation | src/main/java/eu/mizerak/alemiz/LogDNAScheduledAsyncAppender.java:44-66 | Over any run, the lines of all sent payloads followed by what is still queued equal the initially queued entries followed by the appended ones: nothing lost, duplicated or reordered |
| Batching.CancelledSendsNothing | src/main/java/eu/mizerak/alemiz/LogDNAScheduledAsyncAppender.java:83-87 | Once cancelled, no later step sends anything, and every queued or later appended entry stays queued |
| Batching.StopStrandsQueue | src/main/java/eu/mizerak/alemiz/LogDNAScheduledAsyncAppender.java:83-87 | After stop, nothing is sent, and the entries queued at stop remain unsent |
| Batching.AllSentAfterFinalTick | src/main/java/eu/mizerak/alemiz/LogDNAScheduledAsyncAppender.java:44-66 | Without stop, the tick batches concatenate to exactly the appended entries once a final tick has run |
| Batching.TwoAppendsOnePayload | src/main/java/eu/mizerak/alemiz/LogDNAScheduledAsyncAppender.java:44-66 | Two appends within one tick window produce exactly one two-line payload, and the next tick sends nothing |
| ScheduledAsyncAppender.New | src/main/java/eu/mizerak/alemiz/LogDNAScheduledAsyncAppender.java:27-31 | A new appender has an empty queue and a scheduled tick |
| ScheduledAsyncAppender.Append | src/main/java/eu/mizerak/alemiz/LogDNAScheduledAsyncAppender.java:43-50 | No level test: exactly the enriched event is added at the tail of the queue, and nothing is sent |
| ScheduledAsyncAppender.OnTick | src/main/java/eu/mizerak/alemiz/LogDNAScheduledAsyncAppender.java:52-81 | A running tick empties the queue; no request exactly when stopped or the drain is empty; otherwise one `createRequest` whose lines are the whole batch in FIFO order |
| ScheduledAsyncAppender.Stop | src/main/java/eu/mizerak/alemiz/LogDNAScheduledAsyncAppender.java:83-87 | Stopping cancels the ticks without draining the queue |
| ScheduledAsyncAppender.NoTickAfterStop | src/main/java/eu/mizerak/alemiz/LogDNAScheduledAsyncAppender.java:83-87 | A tick after stop sends nothing and leaves the queue untouched |
| ScheduledAsyncAppender.CallConservation | src/main/java/eu/mizerak/alemiz/LogDNAScheduledAsyncAppender.java:44-66 | One call of append, tick or stop moves entries between queue and wire without losing or copying any |
| ScheduledAsyncAppender.NothingLostOrDuplicated | src/main/java/eu/mizerak/alemiz/LogDNAScheduledAsyncAppender.java:44-66 | Over any sequence of calls, the lines of all sent requests followed by the queue equal the initial queue followed by the appended events' entries, in call order |
| AsyncAppender.New | src/main/java/eu/mizerak/alemiz/LogDNAAsyncAppender.java:23-27 | A new appender has an empty queue and a scheduled tick |
| AsyncAppender.Append | src/main/java/eu/mizerak/alemiz/LogDNAAsyncAppender.java:29-36 | No level test: exactly the enriched event is added at the tail, and nothing is sent |
| AsyncAppender.OnTick | src/main/java/eu/mizerak/alemiz/LogDNAAsyncAppender.java:38-52 | A running tick empties the queue; no `sendHtmlRequest` exactly when stopped or the drain is empty; otherwise exactly one, carrying all drained lines in FIFO order |
| AsyncAppender.Stop | src/main/java/eu/mizerak/alemiz/LogDNAAsyncAppender.java:54-58 | Stopping cancels the ticks without a final drain |
| Http.FixedHeaders | src/main/java/eu/mizerak/alemiz/LogDNASimpleAppender.java:122-124 | Three headers in order: apikey with the token, the fixed User-Agent, Accept application/json |
| AppenderBuilder.NewBuilder | src/main/java/eu/mizerak/alemiz/LogDNAAppenderBuilder.java:16-57 | Defaults: name "LogDNAAppender", async false, minimal level INFO, hostname the local host name or "localhost" when the lookup fails, the rest unset or false |
| AppenderBuilder.Set | src/main/java/eu/mizerak/alemiz/LogDNAAppenderBuilder.java:59-107 | Each setter stores its argument in its own field and changes no other field |
| AppenderBuilder.LastWriteWins | src/main/java/eu/mizerak/alemiz/LogDNAAppenderBuilder.java:59-107 | Setting a field twice keeps the last value |
| AppenderBuilder.SettersCommute | src/main/java/eu/mizerak/alemiz/LogDNAAppenderBuilder.java:59-107 | Setters of different fields can be called in either order |
| AppenderBuilder.Build | src/main/java/eu/mizerak/alemiz/LogDNAAppenderBuilder.java:109-115 | The scheduled asynchronous appender exactly when async is set, otherwise the simple appender with the configured minimal level; both carry every configured field, tags joined |

## Left out

- HTTP execution: the OkHttp clients (timeouts, retry on connection failure, connection pool), `execute`/`enqueue`, the async `Callback`, closing the response body, and `System.err` reporting. This is network I/O through a library; a request is modelled as the value handed to the client.
- Concurrency: the `ConcurrentLinkedQueue` and the single-thread scheduler with its 200 ms fixed rate and zero initial delay. The queue is a sequence and a tick is one atomic step of a sequential run.
- Gson serialization, `HttpUrl` percent-encoding and `URLEncoder`: these are foreign libraries. The payload stays a structured datatype; the URL encoder is a function parameter.
- `Layout.toByteArray` and `ThrowableProxy.getCauseStackTraceAsString`: their outputs are opaque string inputs.
- `System.currentTimeMillis` and `InetAddress.getLocalHost`: these are parameters.
- `@Plugin`, `@PluginBuilderAttribute`, `@Required` and the other plugin annotations: these are framework registration and validation.
- Null arguments to the builder's setters, a null level, logger name or context value: Java would store them, or fail later with a NullPointerException. Setter arguments are modelled as present values, except the tags array.
- A missing token. With no token set, `addHeader("apikey", null)` throws a NullPointerException (LogDNASimpleAppender.java:122, LogDNAAppender.java:94), and the code catches only IOException. In the simple appender the exception escapes `append`. In both `onTick`s the batch has already been drained, so it is lost, and the scheduled executor suppresses every later tick, so nothing is sent again. The model does not follow this. It keeps a `None` apikey value and goes on ticking. `Batching.Conservation`, `Batching.AllSentAfterFinalTick` and `ScheduledAsyncAppender.NothingLostOrDuplicated` therefore describe Java only when a token is set; with no token, Java loses every batch.
- A missing layout. The builder's layout defaults to null (LogDNAAppenderBuilder.java:20), and every `append` then throws a NullPointerException at `layout.toByteArray` before anything is enqueued or sent (LogDNASimpleAppender.java:59-60, LogDNAAppender.java:49-50, LogDNAScheduledAsyncAppender.java:45-46, LogDNAAsyncAppender.java:31-32). The `Append` members assume a layout is present, and take its output as the message. The `layout` field is carried through the configuration only so that `build` can be seen to pass it on.
- The builder's async branch (LogDNAAppenderBuilder.java:112) passes eight arguments to a nine-parameter constructor (LogDNAScheduledAsyncAppender.java:27). Only the dispatch is modelled, and the scheduled appender's state carries no minimal level, since its `append` never reads one.
- `LogDNAAppender.Append` and `LogDNAAsyncAppender` share `LineEntries.CreateLineEntry`, because the two Java copies are identical up to whitespace.
- Cyclic cause chains cannot occur with the finite datatype used here. The loop's termination rests on that.
- LogDnaAppender.UrlParameters: requires the encoded hostname and time to contain no `&`. With the charset fallback, a raw hostname containing `&` would add extra parameters.
- AsyncAppender: the run-level conservation law is stated for the scheduled appender (`ScheduledAsyncAppender.NothingLostOrDuplicated`) and for the shared queue (`Batching.Conservation`). The plain async appender uses the same `Batching` queue and tick.
