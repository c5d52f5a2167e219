/**
 * The PHP version scan (internal/scanner/scans/recon/php_version.go):
 * request the target with the scanner's User-Agent and report the
 * X-Powered-By header when it names PHP.
 */
module PhpVersionScan {
  import opened Common
  import opened Strings

  function Name(): string
  {
    "PHP Version Scan"
  }

  const RequestFailedText := "Failed to make request"
  const FoundText := "X-Powered-By header found"
  const NotFoundText := "X-Powered-By header not found"

  /** The one result for the answer `p`. */
  function Classify(target: string, p: Probe): (r: ScanResult)
    ensures r.path == target && r.category == "Recon" && r.scanName == Name()
    ensures p.TransportErr? ==> r.statusCode == 0 && r.description == RequestFailedText && r.detail == p.msg
    ensures p.Resp? ==> r.statusCode == p.status
  {
    match p
    case TransportErr(msg) => ScanResult("Recon", RequestFailedText, target, 0, msg, Name())
    case Resp(status, poweredBy, _, _) =>
      if NonEmptyContains(poweredBy, "PHP") then ScanResult("Recon", FoundText, target, status, poweredBy, Name())
      else ScanResult("Recon", NotFoundText, target, status, "", Name())
  }

  /** Run: exactly one result, for the target. */
  function Run(target: string, fetch: Request -> Probe): (results: seq<ScanResult>)
    ensures |results| == 1
    ensures results[0].path == target && results[0].category == "Recon" && results[0].scanName == Name()
  {
    [Classify(target, fetch(AgentRequest(target)))]
  }

  /** The header is reported, as the detail, exactly when the request got an
      answer whose X-Powered-By contains "PHP". */
  lemma FoundIff(target: string, p: Probe)
    ensures Classify(target, p).description == FoundText <==> p.Resp? && Contains(p.poweredBy, "PHP")
    ensures Classify(target, p).description == FoundText ==> Classify(target, p).detail == p.poweredBy
  {
    if p.Resp? {
      NonEmptyContainsIff(p.poweredBy, "PHP");
    }
    assert |FoundText| == 25 && |NotFoundText| == 29 && |RequestFailedText| == 22;
  }

  /** Otherwise an answer yields "not found" with its status and no detail. */
  lemma NotFoundOtherwise(target: string, p: Probe)
    requires p.Resp? && !Contains(p.poweredBy, "PHP")
    ensures Classify(target, p) == ScanResult("Recon", NotFoundText, target, p.status, "", Name())
  {
  }
}
