/**
 * The Host header injection scan
 * (internal/scanner/scans/recon/host_header_injection.go): request the
 * target with a forged Host header, report whether the forged host is
 * echoed in the body, and if so whether a password recovery page exists.
 */
module HostHeaderInjection {
  import opened Common
  import opened Strings

  function Name(): string
  {
    "Host Header Injection Scan"
  }

  const InjectedHost := "malicious.com"

  const RecoveryPaths: seq<string> := ["/forgot-password", "/auth/forgot-password"]

  /** The request to the target carrying the forged Host header. */
  function InjectionRequest(target: string): Request
  {
    Request(target, map["Host" := InjectedHost])
  }

  /** A recovery path answers a plain request with status 200. */
  predicate RecoveryPageAt(target: string, fetch: Request -> Probe, path: string)
  {
    var p := fetch(Plain(ProbeUrl(target, path)));
    p.Resp? && p.status == 200
  }

  /** checkPasswordRecoveryURLs: true iff some recovery path answers 200.
      `probed` lists the paths requested, in order: the probing stops at
      the first success. */
  method CheckPasswordRecoveryUrls(target: string, fetch: Request -> Probe) returns (found: bool, probed: seq<string>)
    ensures found <==> exists i :: 0 <= i < |RecoveryPaths| && RecoveryPageAt(target, fetch, RecoveryPaths[i])
    ensures 1 <= |probed| <= |RecoveryPaths| && probed == RecoveryPaths[..|probed|]
    ensures forall j :: 0 <= j < |probed| - 1 ==> !RecoveryPageAt(target, fetch, probed[j])
    ensures found ==> RecoveryPageAt(target, fetch, probed[|probed| - 1])
    ensures !found ==> probed == RecoveryPaths
  {
    probed := [];
    var paths := RecoveryPaths;
    for i := 0 to |paths|
      invariant probed == paths[..i]
      invariant forall j :: 0 <= j < i ==> !RecoveryPageAt(target, fetch, paths[j])
    {
      var url := ProbeUrl(target, paths[i]);
      probed := probed + [paths[i]];
      var resp := fetch(Plain(url));
      if resp.Resp? && resp.status == 200 {
        return true, probed;
      }
    }
    return false, probed;
  }

  function RequestFailed(target: string, msg: string): ScanResult
  {
    ScanResult("Recon", RenderStyled("[" + Name() + "]\nDetails: Failed to send request to " + target, "error"), target, 0, msg, Name())
  }

  const InjectedText := "Host Header Injection detected"
  const InjectedDetail := "The response contains the injected Host header value."
  const NotInjectedText := "No Host Header Injection detected"

  function Injected(target: string, status: StatusCode): ScanResult
  {
    ScanResult("Recon", InjectedText, target, status,
      InjectedDetail, Name())
  }

  const TakeoverText :=
    "Password recovery functionality detected, potential account takeover vulnerability due to Host Header Injection"
  const TakeoverDetail :=
    "If the application sends password reset links using the injected Host header, it could lead to an account takeover vulnerability."

  function Takeover(target: string, status: StatusCode): ScanResult
  {
    ScanResult("Recon", TakeoverText, target, status, TakeoverDetail, Name())
  }

  function NotInjected(target: string, status: StatusCode): ScanResult
  {
    ScanResult("Recon", NotInjectedText, target, status, "", Name())
  }

  /** Some recovery path answers 200. */
  predicate HasRecoveryPage(target: string, fetch: Request -> Probe)
  {
    exists i :: 0 <= i < |RecoveryPaths| && RecoveryPageAt(target, fetch, RecoveryPaths[i])
  }

  /** The results for the answer `p` to the forged request, given whether a
      recovery page exists. */
  function Classify(target: string, p: Probe, recovery: bool): seq<ScanResult>
  {
    match p
    case TransportErr(msg) => [RequestFailed(target, msg)]
    case Resp(status, _, _, ReadErr(_, msg)) =>
      [ScanResult("Recon", "Failed to read response body", target, status, msg, Name())]
    case Resp(status, _, _, Content(body)) =>
      if Contains(body, InjectedHost) then
        [Injected(target, status)] + (if recovery then [Takeover(target, status)] else [])
      else [NotInjected(target, status)]
  }

  /** What Run returns. */
  function Results(target: string, fetch: Request -> Probe): seq<ScanResult>
  {
    Classify(target, fetch(InjectionRequest(target)), HasRecoveryPage(target, fetch))
  }

  method Run(target: string, fetch: Request -> Probe) returns (results: seq<ScanResult>)
    ensures results == Results(target, fetch)
    ensures 1 <= |results| <= 2
    ensures forall r :: r in results ==> r.path == target && r.category == "Recon" && r.scanName == Name()
  {
    var resp := fetch(InjectionRequest(target));
    ClassifyShape(target, resp, HasRecoveryPage(target, fetch));
    if resp.TransportErr? {
      results := [RequestFailed(target, resp.msg)];
      return;
    }
    match resp.body {
      case ReadErr(_, msg) =>
        results := [ScanResult("Recon", "Failed to read response body", target, resp.status, msg, Name())];
        return;
      case Content(body) =>
        if Contains(body, InjectedHost) {
          results := [Injected(target, resp.status)];
          var recovery, _ := CheckPasswordRecoveryUrls(target, fetch);
          if recovery {
            results := results + [Takeover(target, resp.status)];
          }
        } else {
          results := [NotInjected(target, resp.status)];
        }
    }
  }

  /** One or two results, each naming the target and tagged with this scan. */
  lemma ClassifyShape(target: string, p: Probe, recovery: bool)
    ensures 1 <= |Classify(target, p, recovery)| <= 2
    ensures forall r :: r in Classify(target, p, recovery) ==>
      r.path == target && r.category == "Recon" && r.scanName == Name()
  {
  }

  /** A transport error yields one result with status 0 and the error text;
      otherwise every result carries the status of the forged request. */
  lemma StatusOfResults(target: string, p: Probe, recovery: bool)
    ensures p.TransportErr? ==> Classify(target, p, recovery) == [RequestFailed(target, p.msg)]
    ensures p.TransportErr? ==> RequestFailed(target, p.msg).statusCode == 0
    ensures p.Resp? ==> forall r :: r in Classify(target, p, recovery) ==> r.statusCode == p.status
  {
  }

  /** A body read error yields the single "Failed to read response body" result. */
  lemma ReadErrorResult(target: string, p: Probe, recovery: bool)
    requires p.Resp? && p.body.ReadErr?
    ensures |Classify(target, p, recovery)| == 1
    ensures Classify(target, p, recovery)[0].description == "Failed to read response body"
    ensures Classify(target, p, recovery)[0].detail == p.body.msg
  {
  }

  /** The forged host echoed: "detected" first, and the takeover warning
      second exactly when a recovery page exists. */
  lemma InjectedResults(target: string, fetch: Request -> Probe)
    requires fetch(InjectionRequest(target)).Resp? && fetch(InjectionRequest(target)).body.Content?
    requires Contains(fetch(InjectionRequest(target)).body.bytes, InjectedHost)
    ensures Results(target, fetch)[0] == Injected(target, fetch(InjectionRequest(target)).status)
    ensures |Results(target, fetch)| == 2 <==> HasRecoveryPage(target, fetch)
  {
  }

  /** The forged host not echoed: the single negative result, whatever the
      recovery pages answer. */
  lemma NotInjectedResult(target: string, p: Probe, recovery: bool)
    requires p.Resp? && p.body.Content? && !Contains(p.body.bytes, InjectedHost)
    ensures Classify(target, p, recovery) == [NotInjected(target, p.status)]
  {
  }

  /** Two results only when the injection was detected, the second being the
      takeover warning. */
  lemma SecondResultNeedsInjection(target: string, p: Probe, recovery: bool)
    ensures |Classify(target, p, recovery)| == 2 <==>
      p.Resp? && p.body.Content? && Contains(p.body.bytes, InjectedHost) && recovery
    ensures |Classify(target, p, recovery)| == 2 ==>
      Classify(target, p, recovery) == [Injected(target, p.status), Takeover(target, p.status)]
  {
  }
}
