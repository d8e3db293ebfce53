/** What the appenders receive from Log4j: a severity level, the attached
    throwable (as Log4j's ThrowableProxy, with its cause chain) and the event
    itself. The formatted message is not part of the event: the layout
    produces it and it is passed alongside. */
module Events {
  import opened Wrappers

  /** A Log4j level: its name (what `toString` returns) and its integer rank.
      Lower ranks are more severe. */
  datatype Level = Level(name: string, intLevel: int)

  const OFF   := Level("OFF", 0)
  const FATAL := Level("FATAL", 100)
  const ERROR := Level("ERROR", 200)
  const WARN  := Level("WARN", 300)
  const INFO  := Level("INFO", 400)
  const DEBUG := Level("DEBUG", 500)
  const TRACE := Level("TRACE", 600)
  const ALL   := Level("ALL", 0x7fff_ffff)

  /** The layout an appender is configured with, by name. The layout turns an
      event into the message bytes; that formatting is not modelled and the
      formatted message is an input. */
  type LayoutName = string

  /** A ThrowableProxy: the throwable's message (None when it is null), the
      text `getCauseStackTraceAsString("")` renders for it, and the proxy of
      its cause, if any. */
  datatype ThrowableProxy = ThrowableProxy(
    message: Option<string>,
    causeStackTrace: string,
    cause: Option<ThrowableProxy>)

  /** A captured log event. `context` is the MDC (thread context) data. */
  datatype LogEvent = LogEvent(
    level: Level,
    epochMillis: int,
    loggerName: string,
    thrown: Option<ThrowableProxy>,
    context: map<string, string>)

  /** The proxies reached by following `cause` from `start`, in walk order.
      The walk ends exactly at the first absent cause. */
  function Causes(start: Option<ThrowableProxy>): (chain: seq<ThrowableProxy>)
    ensures start.None? <==> |chain| == 0
    ensures start.Some? ==> chain[0] == start.value
    ensures forall i :: 0 <= i < |chain| - 1 ==> chain[i].cause == Some(chain[i + 1])
    ensures |chain| > 0 ==> chain[|chain| - 1].cause.None?
  {
    match start
    case None => []
    case Some(p) => [p] + Causes(p.cause)
  }
}
