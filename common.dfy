/**
 * The values every scan works with: the finding record a scan returns
 * (internal/common/types.go), and the abstract view of one HTTP round trip
 * that replaces the transport client, the body reader and the header and
 * cookie accessors.
 */
module Common {

  datatype Option<T> = None | Some(value: T)

  /** One finding of a scan (Go's common.ScanResult). */
  datatype ScanResult = ScanResult(
    category: string,
    description: string,
    path: string,
    statusCode: int,   // 0 when no HTTP round trip applies
    detail: string,
    scanName: string)

  /** Go's HTTP client accepts any three-digit status line, "000" included. */
  type StatusCode = c: int | 0 <= c <= 999

  /** What reading a response body gave: all of it, or the bytes read before an error. */
  datatype Body =
    | Content(bytes: string)
    | ReadErr(partial: string, msg: string)

  /** The outcome of one request: a transport error, or a response with the
      value of its X-Powered-By header ("" when absent), the names of the
      cookies it sets, in order, and its body. */
  datatype Probe =
    | TransportErr(msg: string)
    | Resp(status: StatusCode, poweredBy: string, cookieNames: seq<string>, body: Body)

  /** A GET request: the URL and the extra headers sent with it. */
  datatype Request = Request(url: string, headers: map<string, string>)

  /** A GET with no extra headers (the source passes nil). */
  function Plain(url: string): Request
  {
    Request(url, map[])
  }

  /** The User-Agent sent by the framework detection and PHP version scans. */
  const ScannerAgent := "LaravelScanner/1.0"

  /** A GET of `url` carrying the scanner's User-Agent. */
  function AgentRequest(url: string): Request
  {
    Request(url, map["User-Agent" := ScannerAgent])
  }

  /** A decoded JSON value, as encoding/json decodes into interface{}. */
  datatype Json =
    | JNull
    | JBool(b: bool)
    | JNumber(n: real)
    | JString(s: string)
    | JArray(items: seq<Json>)
    | JObject(fields: map<string, Json>)

  /** The collaborators a scan may call: the HTTP transport, the JSON
      decoder (None when the text is not JSON) and the DNS resolver. */
  datatype Env = Env(
    fetch: Request -> Probe,
    parse: string -> Option<Json>,
    lookup: string -> bool)

  const HttpOk: StatusCode := 200

  /** renderStyled: terminal colouring by message kind comes from a foreign
      library; the model keeps the message text. */
  function RenderStyled(message: string, kind: string): string
  {
    message
  }
}
