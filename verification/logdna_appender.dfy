/** LogDNAAppender: the synchronous appender built on OkHttp 2. Every event is
    enriched and sent at once, without a level test, to a URL assembled as
    text from the ingest address, the encoded hostname and the encoded time. */
module LogDnaAppender {
  import opened Wrappers
  import opened Strings
  import opened Events
  import opened LineEntries
  import opened Http

  datatype Config = Config(
    name: string,
    layout: Option<LayoutName>,
    hostname: string,
    appName: Option<string>,
    token: Option<string>,
    stackTrace: bool,
    supportMdc: bool)

  /** The `httpUrl` field, which nothing reassigns */
  const IngestUrl := "https://logs.logdna.com/logs/ingest"

  /** `URLEncoder.encode(str, "UTF-8")` is `urlEncode`; when the runtime
      reports the charset as unsupported the input comes back as it is. */
  datatype Encoder = Encoder(urlEncode: string -> string, charsetSupported: bool)

  /** `encode(str)` */
  function Encode(enc: Encoder, str: string): (r: string)
    ensures !enc.charsetSupported ==> r == str
    ensures enc.charsetSupported ==> r == enc.urlEncode(str)
  {
    if enc.charsetSupported then enc.urlEncode(str) else str
  }

  function Enrich(c: Config): EnrichConfig
  {
    EnrichConfig(c.appName, c.stackTrace, c.supportMdc)
  }

  /** The URL text of `sendHtmlRequest`, `now` being the current time in
      milliseconds as decimal text. */
  function RequestUrl(c: Config, enc: Encoder, now: string): (url: string)
  {
    IngestUrl + "?hostname=" + Encode(enc, c.hostname) + "&now=" + Encode(enc, now)
  }

  /** The URL is the ingest address, a `?`, and the `&`-joined parameters */
  lemma UrlShape(c: Config, enc: Encoder, now: string)
    ensures RequestUrl(c, enc, now)
         == IngestUrl + ['?'] + Join(["hostname=" + Encode(enc, c.hostname), "now=" + Encode(enc, now)], '&')
  {
    var h := Encode(enc, c.hostname);
    var n := Encode(enc, now);
    var ps := ["hostname=" + h, "now=" + n];
    assert ps[1..] == ["now=" + n];
    assert Join(ps, '&') == ps[0] + ['&'] + ps[1];
    assert "?hostname=" + h == ['?'] + ("hostname=" + h);
    assert "&now=" + n == ['&'] + ("now=" + n);
  }

  /** One query parameter `name=value`, where the name holds no `=` */
  lemma ParamParts(name: string, value: string)
    requires '=' !in name
    ensures Before(name + "=" + value, '=') == name
    ensures After(name + "=" + value, '=') == value
  {
    assert name + "=" + value == name + ['='] + value;
    CutAtFirst(name, '=', value);
  }

  /** The query string of a URL: what follows the first `?` */
  function QueryString(url: string): string
  {
    After(url, '?')
  }

  /** The parameter names of a query string, in order */
  function ParamNames(query: string): (names: seq<string>)
    ensures |names| == |Split(query, '&')|
  {
    var pairs := Split(query, '&');
    seq(|pairs|, i requires 0 <= i < |pairs| => Before(pairs[i], '='))
  }

  /** The parameter values of a query string, in order */
  function ParamValues(query: string): (values: seq<string>)
    ensures |values| == |Split(query, '&')|
  {
    var pairs := Split(query, '&');
    seq(|pairs|, i requires 0 <= i < |pairs| => After(pairs[i], '='))
  }

  /** Read back, the URL carries exactly the parameters hostname and now, in
      that order and with the encoded values, and no tags parameter, as long
      as the encoded texts hold no `&`. */
  lemma UrlParameters(c: Config, enc: Encoder, now: string)
    requires '&' !in Encode(enc, c.hostname) && '&' !in Encode(enc, now)
    ensures ParamNames(QueryString(RequestUrl(c, enc, now))) == ["hostname", "now"]
    ensures ParamValues(QueryString(RequestUrl(c, enc, now))) == [Encode(enc, c.hostname), Encode(enc, now)]
    ensures "tags" !in ParamNames(QueryString(RequestUrl(c, enc, now)))
  {
    var h := "hostname=" + Encode(enc, c.hostname);
    var n := "now=" + Encode(enc, now);
    var query := Join([h, n], '&');
    UrlShape(c, enc, now);
    assert '?' !in IngestUrl;
    CutAtFirst(IngestUrl, '?', query);
    assert QueryString(RequestUrl(c, enc, now)) == query;
    assert Free([h, n], '&');
    SplitJoin([h, n], '&');
    ParamParts("hostname", Encode(enc, c.hostname));
    ParamParts("now", Encode(enc, now));
    assert h == "hostname" + "=" + Encode(enc, c.hostname);
    assert n == "now" + "=" + Encode(enc, now);
  }

  /** `sendHtmlRequest(payload)`, the call itself aside */
  function SendHtmlRequest(c: Config, enc: Encoder, payload: Payload, now: string): (r: Request<string>)
    ensures r.url == RequestUrl(c, enc, now)
    ensures r.headers == [Header("apikey", c.token), Header("User-Agent", Some("LogDna Log4j2 Appender")),
                          Header("Accept", Some("application/json"))]
    ensures r.contentType == "application/json; charset=utf-8"
    ensures r.body == payload
  {
    Post(RequestUrl(c, enc, now), c.token, payload)
  }

  /** `append(event)`: no level test; every event is sent as a one-line
      payload. */
  function Append(c: Config, enc: Encoder, event: LogEvent, message: string, now: string): (r: Request<string>)
    ensures |r.body.lines| == 1
    ensures r.body.lines[0] == CreateLineEntry(Enrich(c), message, event)
    ensures r == SendHtmlRequest(c, enc, Payload(r.body.lines), now)
  {
    SendHtmlRequest(c, enc, Payload([CreateLineEntry(Enrich(c), message, event)]), now)
  }
}
