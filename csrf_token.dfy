/**
 * The CSRF token scan (internal/scanner/scans/vulnerabilities/csrf_token.go):
 * request three pages and report, for each, whether its body carries a
 * CSRF token field.
 */
module CsrfToken {
  import opened Common
  import opened Strings
  import opened Seqs

  function Name(): string
  {
    "CSRF Token"
  }

  const CsrfPaths: seq<string> := ["/", "/login", "/register"]

  const RequestFailedPrefix := "Failed to make request to "
  const ReadFailedPrefix := "Failed to read response body from "
  const FoundText := "CSRF token found"
  const FoundDetailPrefix := "CSRF token found on "
  const NotFoundText := "CSRF token not found"
  const NoTokensText := "No CSRF tokens found on common paths"

  /** The test of the source: either token field name occurs in the body. */
  predicate HasToken(body: string)
  {
    Contains(body, "csrf_token") || Contains(body, "_token")
  }

  /** The first test adds nothing: "csrf_token" ends with "_token". */
  lemma HasTokenIffUnderscoreToken(body: string)
    ensures HasToken(body) <==> Contains(body, "_token")
  {
    if Contains(body, "csrf_token") {
      assert "csrf_token" == "csrf" + "_token";
      ContainsSuffixOf(body, "csrf", "_token");
    }
  }

  function Finding(description: string, path: string, status: int, detail: string): ScanResult
  {
    ScanResult("Vulnerabilities", description, path, status, detail, Name())
  }

  /** The one result for `path`, whose request to `url` got the answer `p`. */
  function PathResult(url: string, path: string, p: Probe): (r: ScanResult)
    ensures r.path == path && r.category == "Vulnerabilities" && r.scanName == Name()
    ensures p.TransportErr? ==> r.statusCode == 0 && r.detail == p.msg
    ensures p.Resp? ==> r.statusCode == p.status
  {
    match p
    case TransportErr(msg) => Finding(RequestFailedPrefix + url, path, 0, msg)
    case Resp(status, _, _, ReadErr(_, msg)) => Finding(ReadFailedPrefix + url, path, status, msg)
    case Resp(status, _, _, Content(body)) =>
      if HasToken(body) then Finding(FoundText, path, status, FoundDetailPrefix + url)
      else Finding(NotFoundText, path, status, "")
  }

  function ProbeOf(target: string, fetch: Request -> Probe, path: string): Probe
  {
    fetch(Plain(ProbeUrl(target, path)))
  }

  /** The results of probing `paths` in order: one per path. */
  function Outcomes(target: string, fetch: Request -> Probe, paths: seq<string>): (rs: seq<ScanResult>)
    ensures |rs| == |paths|
    ensures forall i :: 0 <= i < |paths| ==>
      rs[i] == PathResult(ProbeUrl(target, paths[i]), paths[i], ProbeOf(target, fetch, paths[i]))
  {
    if paths == [] then []
    else
      var path := paths[|paths| - 1];
      Outcomes(target, fetch, paths[..|paths| - 1])
        + [PathResult(ProbeUrl(target, path), path, ProbeOf(target, fetch, path))]
  }

  function NoTokensFound(target: string): ScanResult
  {
    Finding(NoTokensText, target, 0, "")
  }

  /** Run: one result per path, in probe order. The source's "no tokens
      found" fallback for an empty result list is kept; it never fires. */
  method Run(target: string, fetch: Request -> Probe) returns (results: seq<ScanResult>)
    ensures results == Outcomes(target, fetch, CsrfPaths)
    ensures |results| == 3
    ensures forall i :: 0 <= i < 3 ==> results[i].path == CsrfPaths[i] && results[i].scanName == Name()
  {
    var paths := CsrfPaths;
    results := [];
    for i := 0 to |paths|
      invariant results == Outcomes(target, fetch, paths[..i])
    {
      var path := paths[i];
      TakeOneMore(paths, i);
      var url := ProbeUrl(target, path);
      var resp := fetch(Plain(url));
      if resp.TransportErr? {
        results := results + [Finding(RequestFailedPrefix + url, path, 0, resp.msg)];
        continue;
      }
      match resp.body {
        case ReadErr(_, msg) =>
          results := results + [Finding(ReadFailedPrefix + url, path, resp.status, msg)];
          continue;
        case Content(body) =>
          if HasToken(body) {
            results := results + [Finding(FoundText, path, resp.status, FoundDetailPrefix + url)];
          } else {
            results := results + [Finding(NotFoundText, path, resp.status, "")];
          }
      }
    }
    TakeAll(paths);
    if |results| == 0 {
      results := results + [NoTokensFound(target)];
    }
  }

  /** A token is reported exactly for a readable body containing "_token",
      with the probed URL in the detail. */
  lemma FoundIff(url: string, path: string, p: Probe)
    ensures PathResult(url, path, p).description == FoundText <==>
      p.Resp? && p.body.Content? && Contains(p.body.bytes, "_token")
    ensures PathResult(url, path, p).description == FoundText ==>
      PathResult(url, path, p).detail == FoundDetailPrefix + url
  {
    if p.Resp? && p.body.Content? {
      HasTokenIffUnderscoreToken(p.body.bytes);
    }
    FoundTextStandsApart(url);
  }

  /** The found text differs from the three others. */
  lemma FoundTextStandsApart(url: string)
    ensures FoundText != NotFoundText
    ensures FoundText != RequestFailedPrefix + url
    ensures FoundText != ReadFailedPrefix + url
  {
    assert |FoundText| == 16 && |NotFoundText| == 20;
    assert FoundText[0] == 'C';
    assert (RequestFailedPrefix + url)[0] == RequestFailedPrefix[0] == 'F';
    assert (ReadFailedPrefix + url)[0] == ReadFailedPrefix[0] == 'F';
  }

  /** Each of the three results names its own path, in probe order, and a
      request that failed carries status 0 and the error text. */
  lemma ResultsFollowPaths(target: string, fetch: Request -> Probe, i: nat)
    requires i < |CsrfPaths|
    ensures Outcomes(target, fetch, CsrfPaths)[i].path == CsrfPaths[i]
    ensures ProbeOf(target, fetch, CsrfPaths[i]).TransportErr? ==>
      Outcomes(target, fetch, CsrfPaths)[i].statusCode == 0 &&
      Outcomes(target, fetch, CsrfPaths)[i].detail == ProbeOf(target, fetch, CsrfPaths[i]).msg
  {
  }

  /** The fallback can never be returned: every run yields three results. */
  lemma FallbackUnreachable(target: string, fetch: Request -> Probe)
    ensures Outcomes(target, fetch, CsrfPaths) != []
  {
  }
}
