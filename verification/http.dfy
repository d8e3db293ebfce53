/** The request every appender sends to LogDNA: a URL, the fixed headers and
    a JSON body `{"lines": [...]}`. JSON serialization itself is not modelled:
    the body is kept as the structured payload. */
module Http {
  import opened Wrappers
  import opened LineEntries

  /** A request header; the value is None when Java passes null */
  datatype Header = Header(name: string, value: Option<string>)

  /** The JSON object `{"lines": [...]}` */
  datatype Payload = Payload(lines: seq<LineEntry>)

  /** A POST request with a URL of type U */
  datatype Request<U> = Request(url: U, headers: seq<Header>, contentType: string, body: Payload)

  const UserAgent := "LogDna Log4j2 Appender"
  const AcceptJson := "application/json"
  const JsonMediaType := "application/json; charset=utf-8"

  /** The headers both appender families add, in the order they add them */
  function FixedHeaders(token: Option<string>): (headers: seq<Header>)
    ensures |headers| == 3
    ensures headers[0] == Header("apikey", token)
    ensures headers[1] == Header("User-Agent", Some(UserAgent))
    ensures headers[2] == Header("Accept", Some(AcceptJson))
  {
    [Header("apikey", token), Header("User-Agent", Some(UserAgent)), Header("Accept", Some(AcceptJson))]
  }

  /** A POST of the payload with the fixed headers and the JSON media type */
  function Post<U>(url: U, token: Option<string>, payload: Payload): Request<U>
  {
    Request(url, FixedHeaders(token), JsonMediaType, payload)
  }
}
