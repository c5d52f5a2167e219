/**
 * The debug mode scan (internal/scanner/scans/vulnerabilities/debug_mode.go):
 * request a page that does not exist and judge from a 500 answer whether
 * the framework's detailed error page is shown.
 */
module DebugMode {
  import opened Common
  import opened Strings

  function Name(): string
  {
    "Debug Mode"
  }

  const ErrorPath := "/nonexistentpage"
  const WhoopsMarker := "Whoops, looks like something went wrong."
  const ExceptionMarker := "exception"

  const RequestFailedText := "Request to trigger error page failed"
  const ReadFailedText := "Failed to read response body from error page"
  const EnabledText := "Debug mode is enabled!"
  const EnabledDetail := "The application displayed a detailed error page, indicating that debug mode is active."
  const DisabledText := "Debug mode is disabled."
  const DisabledDetail := "The application did not display a detailed error page, indicating that debug mode is likely disabled."
  const UnknownText := "Could not determine debug mode status."
  const UnknownDetail := "The server did not return a 500 Internal Server Error as expected, making it difficult to assess debug mode status."

  const InternalServerError: StatusCode := 500

  /** The probed URL: the target with the path appended, trailing slashes kept. */
  function ErrorUrl(target: string): string
  {
    target + ErrorPath
  }

  /** The detailed error page shows one of the two markers. */
  predicate ShowsErrorDetails(body: string)
  {
    Contains(body, WhoopsMarker) || Contains(body, ExceptionMarker)
  }

  function Finding(url: string, description: string, status: int, detail: string): ScanResult
  {
    ScanResult("Vulnerabilities", description, url, status, detail, Name())
  }

  /** The one result for the answer `p` to the request for `url`. */
  function Classify(url: string, p: Probe): (r: ScanResult)
    ensures r.path == url && r.category == "Vulnerabilities" && r.scanName == Name()
    ensures p.TransportErr? <==> r.statusCode == 0 && r.description == RequestFailedText
    ensures p.TransportErr? ==> r.detail == p.msg
    ensures p.Resp? ==> r.statusCode == p.status
  {
    match p
    case TransportErr(msg) => Finding(url, RequestFailedText, 0, msg)
    case Resp(status, _, _, body) =>
      if status == InternalServerError then
        match body
        case ReadErr(_, msg) => Finding(url, ReadFailedText, status, msg)
        case Content(text) =>
          if ShowsErrorDetails(text) then Finding(url, EnabledText, status, EnabledDetail)
          else Finding(url, DisabledText, status, DisabledDetail)
      else Finding(url, UnknownText, status, UnknownDetail)
  }

  /** Run: exactly one result, for the error URL. */
  function Run(target: string, fetch: Request -> Probe): (results: seq<ScanResult>)
    ensures |results| == 1
    ensures results[0].path == target + "/nonexistentpage"
    ensures results[0].category == "Vulnerabilities" && results[0].scanName == Name()
  {
    var url := ErrorUrl(target);
    [Classify(url, fetch(Plain(url)))]
  }

  /** Debug mode is reported enabled exactly for a readable 500 page showing
      the framework's error details. */
  lemma EnabledIff(url: string, p: Probe)
    ensures Classify(url, p).description == EnabledText <==>
      p.Resp? && p.status == 500 && p.body.Content? && ShowsErrorDetails(p.body.bytes)
  {
    assert |EnabledText| == 22;
    assert |RequestFailedText| == 36 && |ReadFailedText| == 44 && |DisabledText| == 23 && |UnknownText| == 38;
  }

  /** Debug mode is reported disabled exactly for a readable 500 page without
      them. */
  lemma DisabledIff(url: string, p: Probe)
    ensures Classify(url, p).description == DisabledText <==>
      p.Resp? && p.status == 500 && p.body.Content? && !ShowsErrorDetails(p.body.bytes)
  {
    assert |DisabledText| == 23;
    assert |RequestFailedText| == 36 && |ReadFailedText| == 44 && |EnabledText| == 22 && |UnknownText| == 38;
  }

  /** A body read error matters only on a 500: it yields the read-failure
      result with status 500 and the error text. */
  lemma ReadFailure(url: string, p: Probe)
    requires p.Resp? && p.status == 500 && p.body.ReadErr?
    ensures Classify(url, p) == Finding(url, ReadFailedText, 500, p.body.msg)
  {
  }

  /** Any status but 500 is inconclusive, whatever the body says: two answers
      with the same status other than 500 give the same result. */
  lemma BodyIgnoredUnless500(url: string, p: Probe, q: Probe)
    requires p.Resp? && q.Resp? && p.status == q.status && p.status != 500
    ensures Classify(url, p) == Classify(url, q)
    ensures Classify(url, p).description == UnknownText
  {
  }

  /** The URL is not normalised: a target ending in '/' yields a double slash. */
  lemma NoSlashTrimming(target: string, fetch: Request -> Probe)
    ensures Run(target + "/", fetch)[0].path == target + "//nonexistentpage"
  {
    assert ErrorUrl(target + "/") == target + "/" + ErrorPath;
  }
}
