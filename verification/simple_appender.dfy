/** LogDNASimpleAppender: the synchronous appender built on OkHttp 3. It drops
    events by level, enriches the rest one by one and sends each in its own
    request to a structured URL carrying hostname, optional tags and `now`. */
module SimpleAppender {
  import opened Wrappers
  import opened Strings
  import opened Events
  import opened LineEntries
  import opened Http

  /** The configuration fields the simple appender and its scheduled
      subclass share; `tags` is the already comma-joined tag list. */
  datatype Settings = Settings(
    name: string,
    layout: Option<LayoutName>,
    hostname: string,
    appName: Option<string>,
    token: Option<string>,
    stackTrace: bool,
    supportMdc: bool,
    tags: Option<string>)

  /** A simple appender: its settings and the minimal level */
  datatype Config = Config(settings: Settings, minimalLevel: Level)

  /** An OkHttp `HttpUrl` as built here: scheme, host, path segments and the
      query parameters in the order they were added. Percent-encoding is
      left to the URL library and not modelled. */
  datatype HttpUrl = HttpUrl(scheme: string, host: string, path: seq<string>, query: seq<(string, string)>)

  const Scheme := "https"
  const IngestHost := "logs.logdna.com"
  const IngestPath := ["logs", "ingest"]

  /** The tags field as the constructor stores it: null stays null, an
      array becomes its comma-joined elements. */
  function JoinTags(tags: Option<seq<string>>): (joined: Option<string>)
    ensures joined.None? <==> tags.None?
  {
    match tags
    case None => None
    case Some(t) => Some(Join(t, ','))
  }

  /** The constructor of LogDNASimpleAppender (the HTTP client aside) */
  function NewSettings(name: string, layout: Option<LayoutName>, hostname: string, appName: Option<string>,
                       token: Option<string>, stackTrace: bool, supportMdc: bool, tags: Option<seq<string>>): (s: Settings)
    ensures s.name == name && s.layout == layout && s.hostname == hostname
    ensures s.appName == appName && s.token == token
    ensures s.stackTrace == stackTrace && s.supportMdc == supportMdc
    ensures s.tags == JoinTags(tags)
  {
    Settings(name, layout, hostname, appName, token, stackTrace, supportMdc, JoinTags(tags))
  }

  /** The comma-joined tags give back the array, as long as it is non-empty
      and no tag holds a comma. */
  lemma TagsRoundTrip(tags: seq<string>)
    requires |tags| > 0 && Free(tags, ',')
    ensures JoinTags(Some(tags)).Some?
    ensures Split(JoinTags(Some(tags)).value, ',') == tags
  {
    SplitJoin(tags, ',');
  }

  /** The enrichment switches of these settings */
  function Enrich(s: Settings): EnrichConfig
  {
    EnrichConfig(s.appName, s.stackTrace, s.supportMdc)
  }

  /** The level test at the top of `append`, as written: an event is dropped
      when its rank is at most the minimal level's rank. */
  predicate Dropped(event: LogEvent, minimal: Level)
  {
    event.level.intLevel <= minimal.intLevel
  }

  /** The query parameters `createRequest` adds: hostname, tags when present,
      then now. */
  function QueryParams(s: Settings, now: string): (q: seq<(string, string)>)
    ensures s.tags.None? ==> |q| == 2 && q[0] == ("hostname", s.hostname) && q[1] == ("now", now)
    ensures s.tags.Some? ==> |q| == 3 && q[0] == ("hostname", s.hostname) && q[1] == ("tags", s.tags.value) && q[2] == ("now", now)
  {
    [("hostname", s.hostname)] + (if s.tags.Some? then [("tags", s.tags.value)] else []) + [("now", now)]
  }

  /** The value of the first query parameter with the given name */
  function QueryValue(query: seq<(string, string)>, name: string): Option<string>
  {
    if |query| == 0 then None
    else if query[0].0 == name then Some(query[0].1)
    else QueryValue(query[1..], name)
  }

  /** The names of the query parameters, in order */
  function QueryNames(query: seq<(string, string)>): (names: seq<string>)
    ensures |names| == |query|
    ensures forall i :: 0 <= i < |query| ==> names[i] == query[i].0
  {
    if |query| == 0 then [] else [query[0].0] + QueryNames(query[1..])
  }

  /** Looking the parameters up by name finds the hostname, the joined tags
      exactly when there are tags, and the time; no other names occur. */
  lemma QueryParamsLookup(s: Settings, now: string)
    ensures QueryNames(QueryParams(s, now)) == if s.tags.Some? then ["hostname", "tags", "now"] else ["hostname", "now"]
    ensures QueryValue(QueryParams(s, now), "hostname") == Some(s.hostname)
    ensures QueryValue(QueryParams(s, now), "tags") == s.tags
    ensures QueryValue(QueryParams(s, now), "now") == Some(now)
  {
    var q := QueryParams(s, now);
    assert QueryNames(q) == [q[0].0] + QueryNames(q[1..]);
    if s.tags.Some? {
      assert q[1..] == [("tags", s.tags.value), ("now", now)];
      assert q[1..][1..] == [("now", now)];
      assert QueryValue(q, "now") == QueryValue(q[1..][1..], "now");
    } else {
      assert q[1..] == [("now", now)];
      assert q[1..][1..] == [];
      assert QueryValue(q, "tags") == QueryValue(q[1..][1..], "tags");
    }
  }

  /** `createRequest(payload)` with `now` the current time in milliseconds as
      decimal text. */
  function CreateRequest(s: Settings, payload: Payload, now: string): (r: Request<HttpUrl>)
    ensures r.url.scheme == "https" && r.url.host == "logs.logdna.com" && r.url.path == ["logs", "ingest"]
    ensures QueryNames(r.url.query) == if s.tags.Some? then ["hostname", "tags", "now"] else ["hostname", "now"]
    ensures QueryValue(r.url.query, "hostname") == Some(s.hostname)
    ensures QueryValue(r.url.query, "tags") == s.tags
    ensures QueryValue(r.url.query, "now") == Some(now)
    ensures r.headers == [Header("apikey", s.token), Header("User-Agent", Some("LogDna Log4j2 Appender")),
                          Header("Accept", Some("application/json"))]
    ensures r.contentType == "application/json; charset=utf-8"
    ensures r.body == payload
  {
    var q := QueryParams(s, now);
    QueryParamsLookup(s, now);
    Post(HttpUrl(Scheme, IngestHost, IngestPath, q), s.token, payload)
  }

  /** `append(event)`, with the layout's output and the clock as inputs: the
      request sent, or None when the level test drops the event. */
  function Append(c: Config, event: LogEvent, message: string, now: string): (r: Option<Request<HttpUrl>>)
    ensures r.None? <==> event.level.intLevel <= c.minimalLevel.intLevel
    ensures r.Some? ==> |r.value.body.lines| == 1
    ensures r.Some? ==> r.value.body.lines[0] == CreateLineEntry(Enrich(c.settings), message, event)
    ensures r.Some? ==> r.value == CreateRequest(c.settings, Payload(r.value.body.lines), now)
  {
    if Dropped(event, c.minimalLevel) then None
    else Some(CreateRequest(c.settings, Payload([CreateLineEntry(Enrich(c.settings), message, event)]), now))
  }

  /** With the default minimal level INFO the test as written drops FATAL,
      ERROR, WARN and INFO events and lets DEBUG and TRACE through: the
      threshold works the other way round from its name. */
  lemma DefaultLevelKeepsOnlyVerbose(c: Config, event: LogEvent, message: string, now: string)
    requires c.minimalLevel == INFO
    requires event.level in {FATAL, ERROR, WARN, INFO, DEBUG, TRACE}
    ensures Append(c, event, message, now).None? <==> event.level in {FATAL, ERROR, WARN, INFO}
  {
  }

  /** For any threshold, the events that get through are exactly those with a
      larger rank, so the kept ranks form an upward-closed set: the test keeps
      the more verbose events, not the more severe ones. */
  lemma SentLevelsAreUpwardClosed(c: Config, e1: LogEvent, e2: LogEvent, message: string, now: string)
    ensures Append(c, e1, message, now).Some? <==> e1.level.intLevel > c.minimalLevel.intLevel
    ensures Append(c, e1, message, now).Some? && e1.level.intLevel <= e2.level.intLevel
            ==> Append(c, e2, message, now).Some?
    ensures Append(c, e1, message, now).None? && e2.level.intLevel <= e1.level.intLevel
            ==> Append(c, e2, message, now).None?
  {
  }
}
