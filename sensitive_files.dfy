/**
 * The sensitive files scan
 * (internal/scanner/scans/vulnerabilities/sensitive_files_detection.go):
 * request a fixed list of files and directories that should never be
 * served, and report every one that answers 200 with a non-empty body.
 */
module SensitiveFiles {
  import opened Common
  import opened Strings
  import opened Seqs

  function Name(): string
  {
    "Sensitive Files"
  }

  function SensitivePaths(): seq<string>
  {
    [
    "/.env",
    "/.env.local",
    "/.env.production",
    "/.env.staging",
    "/.env.backup",
    "/.env.old",
    "/.env.bak",
    "/.env.save",
    "/.git/config",
    "/.svn/wc.db",
    "/.DS_Store",
    "/.htaccess",
    "/.bash_history",
    "/.bashrc",
    "/.ssh/id_rsa",
    "/.ssh/known_hosts",
    "/composer.json",
    "/composer.lock",
    "/storage/logs/laravel.log",
    "/vendor/",
    "/node_modules/"
  ]
  }

  const ExposedText := "Sensitive file or directory exposed"
  const ExposedDetailPrefix := "Exposed path: "
  const NoneExposedText := "No sensitive files or directories detected"

  function ProbeOf(target: string, fetch: Request -> Probe, path: string): Probe
  {
    fetch(Plain(ProbeUrl(target, path)))
  }

  /** A path is exposed when it answers 200 and its whole body, non-empty,
      could be read. */
  predicate IsExposed(p: Probe)
  {
    p.Resp? && p.status == HttpOk && p.body.Content? && |p.body.bytes| > 0
  }

  function ExposedClassifier(target: string, fetch: Request -> Probe): string -> Option<string>
  {
    path => if IsExposed(ProbeOf(target, fetch, path)) then Some(path) else None
  }

  lemma ExposedClassifierAt(target: string, fetch: Request -> Probe, path: string)
    ensures ExposedClassifier(target, fetch)(path) ==
      if IsExposed(ProbeOf(target, fetch, path)) then Some(path) else None
  {
  }

  /** The paths among `paths` that are exposed, in probe order. */
  function Exposed(target: string, fetch: Request -> Probe, paths: seq<string>): seq<string>
  {
    Collect(paths, ExposedClassifier(target, fetch))
  }

  /** The finding for an exposed path (its status is always 200). */
  function ExposedFinding(path: string): ScanResult
  {
    ScanResult("Vulnerabilities", ExposedText, path, HttpOk, ExposedDetailPrefix + path, Name())
  }

  /** The findings kept in step with the exposed list: one per path, in order. */
  function FindingsFor(paths: seq<string>): (rs: seq<ScanResult>)
    ensures |rs| == |paths|
    ensures forall k :: 0 <= k < |paths| ==> rs[k] == ExposedFinding(paths[k])
  {
    if paths == [] then [] else FindingsFor(paths[..|paths| - 1]) + [ExposedFinding(paths[|paths| - 1])]
  }

  function NoneExposed(target: string): ScanResult
  {
    ScanResult("Vulnerabilities", NoneExposedText, target, 0, "", Name())
  }

  /** What Run returns when it probes `paths` (Run probes SensitivePaths()). */
  function Results(target: string, fetch: Request -> Probe, paths: seq<string>): seq<ScanResult>
  {
    var exposed := Exposed(target, fetch, paths);
    if exposed == [] then [NoneExposed(target)] else FindingsFor(exposed)
  }

  method Run(target: string, fetch: Request -> Probe) returns (results: seq<ScanResult>)
    ensures results == Results(target, fetch, SensitivePaths())
    ensures |results| >= 1
    ensures forall r :: r in results ==> r.scanName == Name()
  {
    results := ScanPaths(target, fetch, SensitivePaths());
    ResultsCount(target, fetch, SensitivePaths());
    ResultsTagged(target, fetch, SensitivePaths());
  }

  /** Run's body for the list `paths`: probe them, then add the "none
      detected" result when nothing was exposed. */
  method ScanPaths(target: string, fetch: Request -> Probe, paths: seq<string>) returns (results: seq<ScanResult>)
    ensures results == Results(target, fetch, paths)
  {
    var exposed;
    exposed, results := ProbePaths(target, fetch, paths);
    if |exposed| == 0 {
      results := results + [NoneExposed(target)];
    }
  }

  /** The probing loop over `paths`: the exposed paths and their findings,
      appended in lockstep. */
  method ProbePaths(target: string, fetch: Request -> Probe, paths: seq<string>)
    returns (exposed: seq<string>, results: seq<ScanResult>)
    ensures exposed == Exposed(target, fetch, paths)
    ensures results == FindingsFor(exposed)
  {
    exposed, results := [], [];
    for i := 0 to |paths|
      invariant exposed == Collect(paths[..i], ExposedClassifier(target, fetch))
      invariant results == FindingsFor(exposed)
    {
      TakeOneMore(paths, i);
      CollectSnoc(paths[..i], paths[i], ExposedClassifier(target, fetch));
      ExposedClassifierAt(target, fetch, paths[i]);
      FindingsForSnoc(exposed, paths[i]);
      exposed, results := ProbePath(target, fetch, paths[i], exposed, results);
    }
    TakeAll(paths);
  }

  /** One iteration: probe `path` and, when it is exposed, append it and its
      finding. */
  method ProbePath(target: string, fetch: Request -> Probe, path: string, exposed: seq<string>, results: seq<ScanResult>)
    returns (exposed': seq<string>, results': seq<ScanResult>)
    ensures IsExposed(ProbeOf(target, fetch, path)) ==>
      exposed' == exposed + [path] && results' == results + [ExposedFinding(path)]
    ensures !IsExposed(ProbeOf(target, fetch, path)) ==> exposed' == exposed && results' == results
  {
    exposed', results' := exposed, results;
    var url := ProbeUrl(target, path);
    var resp := fetch(Plain(url));
    if resp.TransportErr? || resp.status != 200 {
      return;
    }
    match resp.body {
      case ReadErr(_, _) =>
      case Content(bytes) =>
        if |bytes| > 0 {
          exposed' := exposed' + [path];
          results' := results' + [ExposedFinding(path)];
        }
    }
  }

  lemma FindingsForSnoc(paths: seq<string>, path: string)
    ensures FindingsFor(paths + [path]) == FindingsFor(paths) + [ExposedFinding(path)]
  {
    assert (paths + [path])[..|paths|] == paths;
  }

  /** A path is reported exposed exactly when it is probed and exposed. */
  lemma ExposedIff(target: string, fetch: Request -> Probe, paths: seq<string>, path: string)
    ensures path in Exposed(target, fetch, paths) <==>
      path in paths && IsExposed(ProbeOf(target, fetch, path))
  {
    CollectMember(paths, ExposedClassifier(target, fetch), path);
    if path in paths && IsExposed(ProbeOf(target, fetch, path)) {
      var i :| 0 <= i < |paths| && paths[i] == path;
      ExposedClassifierAt(target, fetch, path);
    }
  }

  /** One finding per exposed path, at most one per probed path; the single
      "none detected" result (path target, status 0) exactly when none is
      exposed. */
  lemma ResultsCount(target: string, fetch: Request -> Probe, paths: seq<string>)
    ensures |Exposed(target, fetch, paths)| <= |paths|
    ensures |Results(target, fetch, paths)| ==
      if Exposed(target, fetch, paths) == [] then 1 else |Exposed(target, fetch, paths)|
    ensures Exposed(target, fetch, paths) == [] <==> Results(target, fetch, paths) == [NoneExposed(target)]
  {
    var exposed := Exposed(target, fetch, paths);
    if exposed != [] {
      assert Results(target, fetch, paths)[0] == ExposedFinding(exposed[0]);
      assert |ExposedText| != |NoneExposedText|;
    }
  }

  /** Every result is a Vulnerabilities finding tagged with this scan. */
  lemma ResultsTagged(target: string, fetch: Request -> Probe, paths: seq<string>)
    ensures forall r :: r in Results(target, fetch, paths) ==>
      r.scanName == Name() && r.category == "Vulnerabilities"
  {
    FindingsTagged(Exposed(target, fetch, paths));
  }

  lemma FindingsTagged(exposed: seq<string>)
    ensures forall r :: r in FindingsFor(exposed) ==>
      r.scanName == Name() && r.category == "Vulnerabilities"
  {
    forall r | r in FindingsFor(exposed)
      ensures r.scanName == Name() && r.category == "Vulnerabilities"
    {
      var k :| 0 <= k < |exposed| && FindingsFor(exposed)[k] == r;
    }
  }

  /** The fixed list holds 21 paths, so a run reports at most 21 findings. */
  lemma AtMostTwentyOne(target: string, fetch: Request -> Probe)
    ensures |Results(target, fetch, SensitivePaths())| <= 21
  {
    ResultsCount(target, fetch, SensitivePaths());
  }

  /** Nothing is reported exposed exactly when no probed path is exposed. */
  lemma NoneExposedIff(target: string, fetch: Request -> Probe, paths: seq<string>)
    ensures Results(target, fetch, paths) == [NoneExposed(target)] <==>
      forall i :: 0 <= i < |paths| ==> !IsExposed(ProbeOf(target, fetch, paths[i]))
  {
    ResultsCount(target, fetch, paths);
    CollectEmptyIff(paths, ExposedClassifier(target, fetch));
    forall i | 0 <= i < |paths|
      ensures ExposedClassifier(target, fetch)(paths[i]).None? <==> !IsExposed(ProbeOf(target, fetch, paths[i]))
    {
      ExposedClassifierAt(target, fetch, paths[i]);
    }
  }

  /** The k-th finding reports the k-th exposed path, which is a probed path
      that answered 200 with a readable non-empty body; the finding repeats
      the path in its detail. */
  lemma FindingAt(target: string, fetch: Request -> Probe, paths: seq<string>, k: nat)
    requires k < |Exposed(target, fetch, paths)|
    ensures Results(target, fetch, paths)[k] == ExposedFinding(Exposed(target, fetch, paths)[k])
    ensures Exposed(target, fetch, paths)[k] in paths
    ensures IsExposed(ProbeOf(target, fetch, Exposed(target, fetch, paths)[k]))
  {
    var exposed := Exposed(target, fetch, paths);
    assert exposed[k] in exposed;
    ExposedIff(target, fetch, paths, exposed[k]);
  }

  /** A readable, non-empty .env file is reported. */
  lemma EnvFileReported(target: string, fetch: Request -> Probe)
    requires IsExposed(ProbeOf(target, fetch, "/.env"))
    ensures ExposedFinding("/.env") in Results(target, fetch, SensitivePaths())
  {
    var paths := SensitivePaths();
    assert paths[0] == "/.env";
    ExposedIff(target, fetch, paths, "/.env");
    var exposed := Exposed(target, fetch, paths);
    var k :| 0 <= k < |exposed| && exposed[k] == "/.env";
    assert FindingsFor(exposed)[k] == ExposedFinding("/.env");
  }
}
