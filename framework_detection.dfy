/**
 * The framework detection scan
 * (internal/scanner/scans/recon/framework_detection.go): request the target
 * with the scanner's User-Agent and look for the framework's traces in the
 * X-Powered-By header and in the names of the cookies set.
 */
module FrameworkDetection {
  import opened Common
  import opened Strings
  import opened Seqs

  function Name(): string
  {
    "Framework Detection"
  }

  const RequestFailedText := "Failed to make request"
  const HeaderText := "Possible Laravel framework detected via X-Powered-By header"
  const CookieText := "Laravel framework detected via cookie name"
  const NotDetectedText := "Laravel framework not detected"
  const CookieMarker := "laravel"

  function Finding(target: string, description: string, status: int, detail: string): ScanResult
  {
    ScanResult("Recon", description, target, status, detail, Name())
  }

  /** The header finding, present when the header names PHP. */
  function HeaderFindings(target: string, status: StatusCode, poweredBy: string): seq<ScanResult>
  {
    if NonEmptyContains(poweredBy, "PHP") then [Finding(target, HeaderText, status, poweredBy)] else []
  }

  /** A cookie whose name contains "laravel" yields a finding naming it. */
  function CookieClassifier(target: string, status: StatusCode): string -> Option<ScanResult>
  {
    name => if Contains(name, CookieMarker) then Some(Finding(target, CookieText, status, name)) else None
  }

  lemma CookieClassifierAt(target: string, status: StatusCode, name: string)
    ensures CookieClassifier(target, status)(name) ==
      if Contains(name, CookieMarker) then Some(Finding(target, CookieText, status, name)) else None
  {
  }

  /** The names of the framework's cookies, in the order they were set. */
  function LaravelName(name: string): Option<string>
  {
    if Contains(name, CookieMarker) then Some(name) else None
  }

  function LaravelCookies(names: seq<string>): seq<string>
  {
    Collect(names, LaravelName)
  }

  /** What Run returns for the answer `p`. */
  function Results(target: string, p: Probe): seq<ScanResult>
  {
    match p
    case TransportErr(msg) => [Finding(target, RequestFailedText, 0, msg)]
    case Resp(status, poweredBy, cookies, _) =>
      var found := HeaderFindings(target, status, poweredBy) + Collect(cookies, CookieClassifier(target, status));
      if found == [] then [Finding(target, NotDetectedText, status, "")] else found
  }

  method Run(target: string, fetch: Request -> Probe) returns (results: seq<ScanResult>)
    ensures results == Results(target, fetch(AgentRequest(target)))
    ensures |results| >= 1
    ensures forall r :: r in results ==> r.scanName == Name()
  {
    var resp := fetch(AgentRequest(target));
    ResultsShape(target, resp);
    if resp.TransportErr? {
      return [Finding(target, RequestFailedText, 0, resp.msg)];
    }
    results := [];
    var poweredBy := resp.poweredBy;
    if poweredBy != "" && Contains(poweredBy, "PHP") {
      results := results + [Finding(target, HeaderText, resp.status, poweredBy)];
    }
    assert results == HeaderFindings(target, resp.status, poweredBy);
    results := ScanCookies(target, resp.status, resp.cookieNames, results);
    if |results| == 0 {
      results := results + [Finding(target, NotDetectedText, resp.status, "")];
    }
  }

  /** The cookie loop: append a finding for each framework cookie to `init`. */
  method ScanCookies(target: string, status: StatusCode, cookies: seq<string>, init: seq<ScanResult>)
    returns (results: seq<ScanResult>)
    ensures results == init + Collect(cookies, CookieClassifier(target, status))
  {
    results := init;
    for i := 0 to |cookies|
      invariant results == init + Collect(cookies[..i], CookieClassifier(target, status))
    {
      var name := cookies[i];
      TakeOneMore(cookies, i);
      CollectSnoc(cookies[..i], name, CookieClassifier(target, status));
      CookieClassifierAt(target, status, name);
      if Contains(name, CookieMarker) {
        results := results + [Finding(target, CookieText, status, name)];
      }
    }
    TakeAll(cookies);
  }

  /** Every result names the target and is tagged Recon by this scan; a
      transport error yields the one failure result with status 0, and every
      other result carries the response status. */
  lemma ResultsShape(target: string, p: Probe)
    ensures |Results(target, p)| >= 1
    ensures forall r :: r in Results(target, p) ==>
      r.path == target && r.category == "Recon" && r.scanName == Name()
    ensures p.TransportErr? ==> Results(target, p) == [Finding(target, RequestFailedText, 0, p.msg)]
    ensures p.Resp? ==> forall r :: r in Results(target, p) ==> r.statusCode == p.status
  {
    if p.Resp? {
      var cs := Collect(p.cookieNames, CookieClassifier(target, p.status));
      forall r | r in cs
        ensures r.path == target && r.category == "Recon" && r.scanName == Name() && r.statusCode == p.status
      {
        CollectMember(p.cookieNames, CookieClassifier(target, p.status), r);
      }
    }
  }

  /** The cookie findings are one per framework cookie, in order, each
      carrying the cookie's name as its detail. */
  lemma CookieFindingsName(target: string, status: StatusCode, cookies: seq<string>)
    ensures |Collect(cookies, CookieClassifier(target, status))| == |LaravelCookies(cookies)|
    ensures forall k :: 0 <= k < |LaravelCookies(cookies)| ==>
      Collect(cookies, CookieClassifier(target, status))[k] == Finding(target, CookieText, status, LaravelCookies(cookies)[k])
  {
    var h := (r: ScanResult) => r.detail;
    CollectCorrespond(cookies, CookieClassifier(target, status), LaravelName, h);
    forall k | 0 <= k < |LaravelCookies(cookies)|
      ensures Collect(cookies, CookieClassifier(target, status))[k] == Finding(target, CookieText, status, LaravelCookies(cookies)[k])
    {
      var r := Collect(cookies, CookieClassifier(target, status))[k];
      assert r in Collect(cookies, CookieClassifier(target, status));
      CollectMember(cookies, CookieClassifier(target, status), r);
    }
  }

  /** For an answer: the header finding (when the header names PHP), then one
      finding per framework cookie, so there are max(1, header + cookies)
      results. */
  lemma DetectedCount(target: string, p: Probe)
    requires p.Resp?
    ensures var n := (if Contains(p.poweredBy, "PHP") then 1 else 0) + |LaravelCookies(p.cookieNames)|;
      |Results(target, p)| == if n == 0 then 1 else n
  {
    NonEmptyContainsIff(p.poweredBy, "PHP");
    CookieFindingsName(target, p.status, p.cookieNames);
  }

  /** The header finding comes first, then the cookie findings in the order
      the cookies were set, each naming its cookie. */
  lemma DetectedOrder(target: string, p: Probe)
    requires p.Resp?
    ensures |Results(target, p)| >= (if Contains(p.poweredBy, "PHP") then 1 else 0) + |LaravelCookies(p.cookieNames)|
    ensures Contains(p.poweredBy, "PHP") ==>
      Results(target, p)[0] == Finding(target, HeaderText, p.status, p.poweredBy)
    ensures var off := if Contains(p.poweredBy, "PHP") then 1 else 0;
      forall k :: 0 <= k < |LaravelCookies(p.cookieNames)| ==>
        Results(target, p)[off + k] == Finding(target, CookieText, p.status, LaravelCookies(p.cookieNames)[k])
  {
    DetectedCount(target, p);
    NonEmptyContainsIff(p.poweredBy, "PHP");
    CookieFindingsName(target, p.status, p.cookieNames);
    var header := HeaderFindings(target, p.status, p.poweredBy);
    var cookies := Collect(p.cookieNames, CookieClassifier(target, p.status));
    if header + cookies != [] {
      assert Results(target, p) == header + cookies;
    }
  }

  /** "Not detected" exactly when the header does not name PHP and no cookie
      name contains "laravel". */
  lemma NotDetectedIff(target: string, p: Probe)
    requires p.Resp?
    ensures Results(target, p) == [Finding(target, NotDetectedText, p.status, "")] <==>
      !Contains(p.poweredBy, "PHP") &&
      forall i :: 0 <= i < |p.cookieNames| ==> !Contains(p.cookieNames[i], CookieMarker)
  {
    NonEmptyContainsIff(p.poweredBy, "PHP");
    CollectEmptyIff(p.cookieNames, CookieClassifier(target, p.status));
    var found := HeaderFindings(target, p.status, p.poweredBy) + Collect(p.cookieNames, CookieClassifier(target, p.status));
    if found != [] {
      ResultsShape(target, p);
      var r := found[0];
      assert r in Results(target, p);
      if r in HeaderFindings(target, p.status, p.poweredBy) {
        assert r.description == HeaderText;
      } else {
        assert r in Collect(p.cookieNames, CookieClassifier(target, p.status));
        CollectMember(p.cookieNames, CookieClassifier(target, p.status), r);
        assert r.description == CookieText;
      }
      assert |HeaderText| != |NotDetectedText| && |CookieText| != |NotDetectedText|;
    }
  }
}
