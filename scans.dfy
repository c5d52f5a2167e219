/**
 * The Scan interface of internal/common/types.go and the ten scans that
 * implement it: each has a name and a Run from a target to its results.
 */
module Scans {
  import opened Common
  import FrameworkDetection
  import LaravelVersion
  import Livewire
  import PhpVersionScan
  import SubdomainEnum
  import HostHeaderInjection
  import CsrfToken
  import DebugMode
  import SensitiveFiles
  import ToolsDetection

  /** The scans the scanner registers, recon first, then vulnerabilities. */
  datatype Scan =
    | FrameworkDetectionScan
    | LaravelVersionScan
    | LivewireScan
    | PhpVersionScan
    | SubdomainEnumScan
    | HostHeaderInjectionScan
    | CsrfTokenScan
    | DebugModeScan
    | SensitiveFilesScan
    | ToolsDetectionScan

  /** Scan.Name. */
  function Name(s: Scan): string
  {
    match s
    case FrameworkDetectionScan => FrameworkDetection.Name()
    case LaravelVersionScan => LaravelVersion.Name()
    case LivewireScan => Livewire.Name()
    case PhpVersionScan => PhpVersionScan.Name()
    case SubdomainEnumScan => SubdomainEnum.Name()
    case HostHeaderInjectionScan => HostHeaderInjection.Name()
    case CsrfTokenScan => CsrfToken.Name()
    case DebugModeScan => DebugMode.Name()
    case SensitiveFilesScan => SensitiveFiles.Name()
    case ToolsDetectionScan => ToolsDetection.Name()
  }

  /** The scans of the "recon" category. */
  predicate IsRecon(s: Scan)
  {
    s.FrameworkDetectionScan? || s.LaravelVersionScan? || s.LivewireScan? ||
    s.PhpVersionScan? || s.SubdomainEnumScan? || s.HostHeaderInjectionScan?
  }

  /** Scan.Run: every scan reports at least one result, and every result
      carries the name of the scan that produced it. */
  method Run(s: Scan, target: string, env: Env) returns (results: seq<ScanResult>)
    ensures |results| >= 1
    ensures forall r :: r in results ==> r.scanName == Name(s)
  {
    if IsRecon(s) {
      results := RunRecon(s, target, env);
    } else {
      results := RunVulnerabilities(s, target, env);
    }
  }

  method RunRecon(s: Scan, target: string, env: Env) returns (results: seq<ScanResult>)
    requires IsRecon(s)
    ensures |results| >= 1
    ensures forall r :: r in results ==> r.scanName == Name(s)
  {
    match s {
      case FrameworkDetectionScan =>
        results := FrameworkDetection.Run(target, env.fetch);
      case LaravelVersionScan =>
        results := LaravelVersion.Run(target, env.fetch, env.parse);
      case LivewireScan =>
        results := Livewire.Run(target, env.fetch);
      case PhpVersionScan =>
        results := PhpVersionScan.Run(target, env.fetch);
      case SubdomainEnumScan =>
        results := SubdomainEnum.Run(target, env.lookup);
      case HostHeaderInjectionScan =>
        results := HostHeaderInjection.Run(target, env.fetch);
    }
  }

  method RunVulnerabilities(s: Scan, target: string, env: Env) returns (results: seq<ScanResult>)
    requires !IsRecon(s)
    ensures |results| >= 1
    ensures forall r :: r in results ==> r.scanName == Name(s)
  {
    match s {
      case CsrfTokenScan =>
        results := CsrfToken.Run(target, env.fetch);
      case DebugModeScan =>
        results := DebugMode.Run(target, env.fetch);
      case SensitiveFilesScan =>
        results := SensitiveFiles.Run(target, env.fetch);
      case ToolsDetectionScan =>
        results := ToolsDetection.Run(target, env.fetch);
    }
  }
}
