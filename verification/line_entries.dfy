/** `createLineEntry`, which both synchronous appender classes carry as
    identical copies: the JSON record LogDNA ingests for one event, with the
    message text, the expanded cause chain and the metadata map. */
module LineEntries {
  import opened Wrappers
  import opened Events

  /** One element of the `lines` array. `app` is None when the appender was
      configured without an application name (Java null). */
  datatype LineEntry = LineEntry(
    timestamp: int,
    level: string,
    app: Option<string>,
    line: string,
    meta: map<string, string>)

  /** The part of an appender's configuration that enrichment reads */
  datatype EnrichConfig = EnrichConfig(appName: Option<string>, stackTrace: bool, supportMdc: bool)

  /** Blank-line separator written before every exception block */
  const Separator := "\n\n"

  /** What `throwable.getClass()` prints: the class of the proxy object,
      whatever exception it wraps. */
  const ProxyClass := "class org.apache.logging.log4j.core.impl.ThrowableProxy"

  /** A null message is appended as the four letters "null" */
  function MessageText(message: Option<string>): string
  {
    message.GetOr("null")
  }

  /** The block for the top throwable: class, colon, message */
  function TopBlock(t: ThrowableProxy): string
  {
    Separator + ProxyClass + ": " + MessageText(t.message)
  }

  /** The block for one link of the cause chain */
  function CauseBlock(c: ThrowableProxy): string
  {
    Separator + c.causeStackTrace
  }

  /** One block per link of the cause chain starting at `cause`, in walk
      order */
  function CauseBlocks(cause: Option<ThrowableProxy>): (blocks: seq<string>)
    ensures |blocks| == |Causes(cause)|
    ensures forall i :: 0 <= i < |blocks| ==> blocks[i] == CauseBlock(Causes(cause)[i])
  {
    var chain := Causes(cause);
    seq(|chain|, i requires 0 <= i < |chain| => CauseBlock(chain[i]))
  }

  /** The exception blocks in output order: the top throwable first, then one
      block per cause link in walk order. */
  function ExceptionBlocks(t: ThrowableProxy): (blocks: seq<string>)
    ensures |blocks| == |Causes(t.cause)| + 1
    ensures blocks[0] == TopBlock(t)
    ensures forall i :: 0 <= i < |Causes(t.cause)| ==> blocks[i + 1] == CauseBlock(Causes(t.cause)[i])
  {
    [TopBlock(t)] + CauseBlocks(t.cause)
  }

  /** Concatenation of a sequence of strings */
  function Concat(parts: seq<string>): string
  {
    if |parts| == 0 then "" else parts[0] + Concat(parts[1..])
  }

  /** The `line` field: the formatted message, followed by the exception
      blocks when stack traces are enabled and a throwable is attached. */
  function LineText(message: string, thrown: Option<ThrowableProxy>, stackTrace: bool): string
  {
    if thrown.Some? && stackTrace then message + Concat(ExceptionBlocks(thrown.value))
    else message
  }

  /** The text the cause loop appends, starting from `cause` and following
      links until the cause is absent. */
  function CauseText(cause: Option<ThrowableProxy>): string
  {
    match cause
    case None => ""
    case Some(c) => CauseBlock(c) + CauseText(c.cause)
  }

  lemma {:induction false} ConcatCons(head: string, tail: seq<string>)
    ensures Concat([head] + tail) == head + Concat(tail)
  {
    assert ([head] + tail)[1..] == tail;
  }

  /** The text of the cause loop is the concatenation of one block per link */
  lemma {:induction false} CauseTextIsBlocks(cause: Option<ThrowableProxy>)
    ensures CauseText(cause) == Concat(CauseBlocks(cause))
  {
    match cause
    case None =>
      assert |CauseBlocks(cause)| == 0;
    case Some(c) =>
      CauseTextIsBlocks(c.cause);
      var rest := CauseBlocks(c.cause);
      assert Causes(cause) == [c] + Causes(c.cause);
      assert CauseBlocks(cause) == [CauseBlock(c)] + rest;
      ConcatCons(CauseBlock(c), rest);
  }

  /** With a throwable attached, the text is the message, the top block and
      the text of the cause walk */
  lemma ThrownText(message: string, t: ThrowableProxy)
    ensures LineText(message, Some(t), true) == message + TopBlock(t) + CauseText(t.cause)
    ensures LineText(message, Some(t), true) == message + TopBlock(t) + Concat(ExceptionBlocks(t)[1..])
  {
    CauseTextIsBlocks(t.cause);
    var blocks := ExceptionBlocks(t);
    assert blocks[1..] == CauseBlocks(t.cause);
    ConcatCons(blocks[0], blocks[1..]);
    assert [blocks[0]] + blocks[1..] == blocks;
    assert message + (blocks[0] + Concat(blocks[1..])) == message + blocks[0] + Concat(blocks[1..]);
  }

  /** The StringBuilder walk of `createLineEntry`, statement by statement */
  method BuildLineText(message: string, thrown: Option<ThrowableProxy>, stackTrace: bool)
    returns (text: string)
    ensures text == LineText(message, thrown, stackTrace)
    ensures !(thrown.Some? && stackTrace) ==> text == message
    ensures thrown.Some? && stackTrace ==>
      text == message + TopBlock(thrown.value) + Concat(ExceptionBlocks(thrown.value)[1..])
  {
    text := message;
    if thrown.Some? && stackTrace {
      var throwable := thrown.value;
      text := text + TopBlock(throwable);
      var cause := throwable.cause;
      ghost var target := message + TopBlock(throwable) + CauseText(throwable.cause);
      while cause.Some?
        invariant text + CauseText(cause) == target
        decreases cause
      {
        var c := cause.value;
        assert CauseText(cause) == CauseBlock(c) + CauseText(c.cause);
        assert (text + CauseBlock(c)) + CauseText(c.cause) == text + (CauseBlock(c) + CauseText(c.cause));
        text := text + CauseBlock(c);
        cause := c.cause;
      }
      assert text + "" == text;
      ThrownText(message, throwable);
    }
  }

  /** The metadata map: `logger` always, then every MDC entry when MDC support
      is on and the context is non-empty; a context key `logger` overwrites
      the logger name. */
  function Meta(loggerName: string, context: map<string, string>, supportMdc: bool): (meta: map<string, string>)
    ensures "logger" in meta
    ensures !supportMdc || |context| == 0 ==> meta == map["logger" := loggerName]
    ensures supportMdc ==> meta.Keys == {"logger"} + context.Keys
    ensures supportMdc ==> forall k :: k in context ==> meta[k] == context[k]
    ensures "logger" !in context || !supportMdc ==> meta["logger"] == loggerName
  {
    var base := map["logger" := loggerName];
    if supportMdc && |context| > 0 then base + context else base
  }

  /** The entries of a map listed once each, in some iteration order */
  ghost predicate Enumerates(entries: seq<(string, string)>, m: map<string, string>)
  {
    && (forall i, j :: 0 <= i < j < |entries| ==> entries[i].0 != entries[j].0)
    && (forall i :: 0 <= i < |entries| ==> entries[i].0 in m && m[entries[i].0] == entries[i].1)
    && (forall k :: k in m ==> exists i :: 0 <= i < |entries| && entries[i].0 == k)
  }

  /** The map that a run of `addProperty` calls builds, later calls winning */
  function ToMap(entries: seq<(string, string)>): map<string, string>
    decreases |entries|
  {
    if |entries| == 0 then map[]
    else
      var last := entries[|entries| - 1];
      ToMap(entries[..|entries| - 1])[last.0 := last.1]
  }

  /** With distinct keys, every listed entry survives in the built map and
      nothing else is in it */
  lemma {:induction false} ToMapHolds(entries: seq<(string, string)>)
    requires forall i, j :: 0 <= i < j < |entries| ==> entries[i].0 != entries[j].0
    ensures forall i :: 0 <= i < |entries| ==> entries[i].0 in ToMap(entries) && ToMap(entries)[entries[i].0] == entries[i].1
    ensures forall k :: k in ToMap(entries) ==> exists i :: 0 <= i < |entries| && entries[i].0 == k
    decreases |entries|
  {
    if |entries| > 0 {
      var init := entries[..|entries| - 1];
      ToMapHolds(init);
      forall k | k in ToMap(entries)
        ensures exists i :: 0 <= i < |entries| && entries[i].0 == k
      {
        if k != entries[|entries| - 1].0 {
          var i :| 0 <= i < |init| && init[i].0 == k;
          assert entries[i].0 == k;
        }
      }
    }
  }

  /** The entry list of a map, turned back into a map, is that map */
  lemma EnumeratedMap(entries: seq<(string, string)>, m: map<string, string>)
    requires Enumerates(entries, m)
    ensures ToMap(entries) == m
  {
    ToMapHolds(entries);
    var t := ToMap(entries);
    forall k | k in m
      ensures k in t && t[k] == m[k]
    {
      var i :| 0 <= i < |entries| && entries[i].0 == k;
    }
    assert t.Keys == m.Keys;
  }

  /** The `for (entry : context.entrySet())` loop: one `addProperty` per entry.
      Whatever the iteration order, the result is the union with the context
      winning on a shared key. */
  method AddProperties(meta: map<string, string>, entries: seq<(string, string)>, ghost context: map<string, string>)
    returns (r: map<string, string>)
    requires Enumerates(entries, context)
    ensures r == meta + context
  {
    r := meta;
    var i := 0;
    while i < |entries|
      invariant 0 <= i <= |entries|
      invariant r == meta + ToMap(entries[..i])
    {
      assert entries[..i + 1][..i] == entries[..i];
      r := r[entries[i].0 := entries[i].1];
      i := i + 1;
    }
    assert entries[..i] == entries;
    EnumeratedMap(entries, context);
  }

  /** `createLineEntry(message, event)` */
  function CreateLineEntry(config: EnrichConfig, message: string, event: LogEvent): (entry: LineEntry)
    ensures entry.timestamp == event.epochMillis
    ensures entry.level == event.level.name
    ensures entry.app == config.appName
    ensures entry.line == LineText(message, event.thrown, config.stackTrace)
    ensures entry.meta == Meta(event.loggerName, event.context, config.supportMdc)
  {
    LineEntry(
      event.epochMillis,
      event.level.name,
      config.appName,
      LineText(message, event.thrown, config.stackTrace),
      Meta(event.loggerName, event.context, config.supportMdc))
  }

  /** A worked case: an ERROR event "boom" at 1700000000000 with the MDC entry
      reqId=42, for app "svc" with MDC support on, becomes the entry with
      exactly these five fields. */
  lemma ExampleEntry(loggerName: string)
    ensures CreateLineEntry(EnrichConfig(Some("svc"), true, true), "boom",
                            LogEvent(ERROR, 1700000000000, loggerName, None, map["reqId" := "42"]))
         == LineEntry(1700000000000, "ERROR", Some("svc"), "boom", map["logger" := loggerName, "reqId" := "42"])
  {
    assert "reqId" != "logger";
  }
}
