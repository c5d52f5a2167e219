/**
 * The tools detection scan
 * (internal/scanner/scans/vulnerabilities/tools_detection.go): probe the
 * usual paths of Laravel tools and admin panels, list those that answer 200
 * with a tool's name near the start of the page, and those that answer
 * 401 or 403.
 */
module ToolsDetection {
  import opened Common
  import opened Strings
  import opened Seqs

  function Name(): string
  {
    "laravel Tools"
  }

  const ToolPaths: seq<string> := [
    "/_debugbar",
    "/telescope",
    "/horizon",
    "/nova",
    "/admin",
    "/phpmyadmin",
    "/_ignition/execute-solution",
    "/_ignition/health-check"
  ]

  /** The names whose presence marks a page as an accessible tool. */
  const Keywords: seq<string> := [
    "Debugbar", "Telescope", "Horizon", "Nova", "phpMyAdmin", "Ignition", "Laravel", "Admin"
  ]

  /** At most this many body bytes are read. */
  const ReadLimit: nat := 512

  const ExposedText := "Publicly exposed tools and admin interfaces detected"
  const NoneExposedText := "No publicly exposed tools or admin interfaces detected"
  const RestrictedText := "Tools and admin interfaces exist but are access-restricted"

  /** The bytes a reader delivers before the end or an error. */
  function Delivered(b: Body): string
  {
    match b
    case Content(bytes) => bytes
    case ReadErr(partial, _) => partial
  }

  /** Reading the body through a 512-byte limit, ignoring any read error:
      the first min(512, n) of the n bytes delivered. */
  function LimitedBody(b: Body): (r: string)
    ensures |r| <= ReadLimit
    ensures |r| == if |Delivered(b)| < ReadLimit then |Delivered(b)| else ReadLimit
    ensures HasPrefix(Delivered(b), r)
  {
    var s := Delivered(b);
    if |s| <= ReadLimit then s else s[..ReadLimit]
  }

  /** Some keyword of `keys` occurs in `s`: the chain of substring tests,
      tried in list order. */
  predicate MentionsAny(s: string, keys: seq<string>)
  {
    keys != [] && (Contains(s, keys[0]) || MentionsAny(s, keys[1..]))
  }

  /** The eight tests of the source, or-ed in its order. */
  predicate MentionsTool(s: string)
  {
    MentionsAny(s, Keywords)
  }

  /** The chain holds exactly when some keyword of the list occurs. */
  lemma {:induction false} MentionsAnyIffSome(s: string, keys: seq<string>)
    ensures MentionsAny(s, keys) <==> exists k :: 0 <= k < |keys| && Contains(s, keys[k])
  {
    if keys != [] {
      MentionsAnyIffSome(s, keys[1..]);
      if exists k :: 0 <= k < |keys| && Contains(s, keys[k]) {
        var k :| 0 <= k < |keys| && Contains(s, keys[k]);
        if k > 0 {
          assert keys[1..][k - 1] == keys[k];
        }
      }
      if exists k :: 0 <= k < |keys[1..]| && Contains(s, keys[1..][k]) {
        var k :| 0 <= k < |keys[1..]| && Contains(s, keys[1..][k]);
        assert keys[k + 1] == keys[1..][k];
      }
    }
  }

  /** The eight tests of the source, spelled out, agree with the list. */
  lemma MentionsToolUnrolled(s: string)
    ensures MentionsTool(s) <==>
      Contains(s, "Debugbar") || Contains(s, "Telescope") || Contains(s, "Horizon") ||
      Contains(s, "Nova") || Contains(s, "phpMyAdmin") || Contains(s, "Ignition") ||
      Contains(s, "Laravel") || Contains(s, "Admin")
  {
    MentionsAnyIffSome(s, Keywords);
    assert Keywords[0] == "Debugbar" && Keywords[1] == "Telescope" && Keywords[2] == "Horizon";
    assert Keywords[3] == "Nova" && Keywords[4] == "phpMyAdmin" && Keywords[5] == "Ignition";
    assert Keywords[6] == "Laravel" && Keywords[7] == "Admin";
  }

  /** The path lands in the exposed list: status 200 and a tool named in the
      limited body. */
  predicate IsExposed(p: Probe)
  {
    p.Resp? && p.status == 200 && MentionsTool(LimitedBody(p.body))
  }

  /** The path lands in the existing list: access denied. */
  predicate IsRestricted(p: Probe)
  {
    p.Resp? && (p.status == 403 || p.status == 401)
  }

  /** The entry for a restricted path: the path and the status code. */
  function RestrictedEntry(path: string, status: StatusCode): string
  {
    path + " (Status: " + NatToDecimal(status) + ")"
  }

  /** The fmt.Sprintf call building an entry; kept apart from the loop so
      that the loop's proof does not expand the decimal rendering. */
  method FormatRestricted(path: string, status: StatusCode) returns (entry: string)
    ensures entry == RestrictedEntry(path, status)
  {
    entry := path + " (Status: " + NatToDecimal(status) + ")";
  }

  function ProbeOf(target: string, fetch: Request -> Probe, path: string): Probe
  {
    fetch(Plain(ProbeUrl(target, path)))
  }

  function ExposedClassifier(target: string, fetch: Request -> Probe): string -> Option<string>
  {
    path => if IsExposed(ProbeOf(target, fetch, path)) then Some(path) else None
  }

  function RestrictedClassifier(target: string, fetch: Request -> Probe): string -> Option<string>
  {
    path =>
      var p := ProbeOf(target, fetch, path);
      if IsRestricted(p) then Some(RestrictedEntry(path, p.status)) else None
  }

  lemma ClassifiersAt(target: string, fetch: Request -> Probe, path: string)
    ensures ExposedClassifier(target, fetch)(path) ==
      if IsExposed(ProbeOf(target, fetch, path)) then Some(path) else None
    ensures RestrictedClassifier(target, fetch)(path) ==
      if IsRestricted(ProbeOf(target, fetch, path))
      then Some(RestrictedEntry(path, ProbeOf(target, fetch, path).status)) else None
  {
  }

  /** Both lists after probing `paths` in order, built in one pass as the
      loop builds them. */
  function Lists(target: string, fetch: Request -> Probe, paths: seq<string>): (seq<string>, seq<string>)
  {
    if paths == [] then ([], [])
    else
      var (exposed, existing) := Lists(target, fetch, paths[..|paths| - 1]);
      var path := paths[|paths| - 1];
      var p := ProbeOf(target, fetch, path);
      (exposed + (if IsExposed(p) then [path] else []),
       existing + (if IsRestricted(p) then [RestrictedEntry(path, p.status)] else []))
  }

  lemma ListsSnoc(target: string, fetch: Request -> Probe, done: seq<string>, path: string)
    ensures var p := ProbeOf(target, fetch, path);
      Lists(target, fetch, done + [path]) ==
      (Lists(target, fetch, done).0 + (if IsExposed(p) then [path] else []),
       Lists(target, fetch, done).1 + (if IsRestricted(p) then [RestrictedEntry(path, p.status)] else []))
  {
    assert (done + [path])[..|done + [path]| - 1] == done;
  }

  /** The one-pass lists are the two selections of the paths. */
  lemma {:induction false} ListsAreSelections(target: string, fetch: Request -> Probe, paths: seq<string>)
    ensures Lists(target, fetch, paths).0 == Collect(paths, ExposedClassifier(target, fetch))
    ensures Lists(target, fetch, paths).1 == Collect(paths, RestrictedClassifier(target, fetch))
  {
    if paths != [] {
      var done := paths[..|paths| - 1];
      var path := paths[|paths| - 1];
      assert paths == done + [path];
      ListsAreSelections(target, fetch, done);
      ListsSnoc(target, fetch, done, path);
      CollectSnoc(done, path, ExposedClassifier(target, fetch));
      CollectSnoc(done, path, RestrictedClassifier(target, fetch));
      ClassifiersAt(target, fetch, path);
    }
  }

  /** exposedTools after the loop. */
  function ExposedTools(target: string, fetch: Request -> Probe): seq<string>
  {
    Collect(ToolPaths, ExposedClassifier(target, fetch))
  }

  /** existingTools after the loop. */
  function ExistingTools(target: string, fetch: Request -> Probe): seq<string>
  {
    Collect(ToolPaths, RestrictedClassifier(target, fetch))
  }

  function ExposedResult(paths: seq<string>): ScanResult
  {
    ScanResult("Vulnerabilities", ExposedText, Join(paths, ", "), 200, "", Name())
  }

  function NoneExposedResult(): ScanResult
  {
    ScanResult("Vulnerabilities", NoneExposedText, "", 0, "", Name())
  }

  function RestrictedResult(entries: seq<string>): ScanResult
  {
    ScanResult("Recon", RestrictedText, Join(entries, ", "), 403, "", Name())
  }

  /** What Run returns for the two lists. */
  function Summarize(exposed: seq<string>, existing: seq<string>): seq<ScanResult>
  {
    [if exposed != [] then ExposedResult(exposed) else NoneExposedResult()]
      + (if existing != [] then [RestrictedResult(existing)] else [])
  }

  function Results(target: string, fetch: Request -> Probe): seq<ScanResult>
  {
    Summarize(ExposedTools(target, fetch), ExistingTools(target, fetch))
  }

  /** The probing loop: both lists, in probe order. */
  method ProbeTools(target: string, fetch: Request -> Probe) returns (exposedTools: seq<string>, existingTools: seq<string>)
    ensures exposedTools == ExposedTools(target, fetch)
    ensures existingTools == ExistingTools(target, fetch)
  {
    var paths := ToolPaths;
    exposedTools := [];
    existingTools := [];
    for i := 0 to |paths|
      invariant exposedTools == Lists(target, fetch, paths[..i]).0
      invariant existingTools == Lists(target, fetch, paths[..i]).1
    {
      var path := paths[i];
      TakeOneMore(paths, i);
      ListsSnoc(target, fetch, paths[..i], path);
      var url := ProbeUrl(target, path);
      var resp := fetch(Plain(url));
      if resp.TransportErr? {
        continue;
      }
      var body := LimitedBody(resp.body);
      if resp.status == 200 {
        if MentionsTool(body) {
          exposedTools := exposedTools + [path];
        }
      } else if resp.status == 403 || resp.status == 401 {
        var entry := FormatRestricted(path, resp.status);
        existingTools := existingTools + [entry];
      }
    }
    TakeAll(paths);
    ListsAreSelections(target, fetch, paths);
  }

  method Run(target: string, fetch: Request -> Probe) returns (results: seq<ScanResult>)
    ensures results == Results(target, fetch)
    ensures 1 <= |results| <= 2
    ensures forall r :: r in results ==> r.scanName == Name()
  {
    var exposedTools, existingTools := ProbeTools(target, fetch);
    results := Report(exposedTools, existingTools);
  }

  /** The reporting step after the loop. */
  method Report(exposedTools: seq<string>, existingTools: seq<string>) returns (results: seq<ScanResult>)
    ensures results == Summarize(exposedTools, existingTools)
    ensures 1 <= |results| <= 2
    ensures forall r :: r in results ==> r.scanName == Name()
  {
    results := [];
    if |exposedTools| > 0 {
      results := results + [ExposedResult(exposedTools)];
    } else {
      results := results + [NoneExposedResult()];
    }
    if |existingTools| > 0 {
      results := results + [RestrictedResult(existingTools)];
    }
  }

  /** Exactly one of the exposed / none-exposed results comes first, and the
      access-restricted result follows exactly when some path was denied. */
  lemma SummarizeShape(exposed: seq<string>, existing: seq<string>)
    ensures |Summarize(exposed, existing)| == if existing == [] then 1 else 2
    ensures var r := Summarize(exposed, existing)[0];
      r.category == "Vulnerabilities" &&
      (r.description == ExposedText <==> exposed != []) &&
      (r.statusCode == 200 <==> exposed != []) &&
      (exposed == [] ==> r.path == "" && r.statusCode == 0)
    ensures existing != [] ==> Summarize(exposed, existing)[1] == RestrictedResult(existing)
    ensures existing != [] ==> Summarize(exposed, existing)[1].statusCode == 403
  {
    assert |ExposedText| != |NoneExposedText|;
  }

  /** A path is listed as exposed exactly when its probe shows an exposed tool. */
  lemma ExposedMembership(target: string, fetch: Request -> Probe, path: string)
    ensures path in ExposedTools(target, fetch) <==>
      path in ToolPaths && IsExposed(ProbeOf(target, fetch, path))
  {
    var f := ExposedClassifier(target, fetch);
    CollectMember(ToolPaths, f, path);
    if path in ToolPaths {
      var i :| 0 <= i < |ToolPaths| && ToolPaths[i] == path;
      ClassifiersAt(target, fetch, path);
    }
    if exists i :: 0 <= i < |ToolPaths| && f(ToolPaths[i]) == Some(path) {
      var i :| 0 <= i < |ToolPaths| && f(ToolPaths[i]) == Some(path);
      ClassifiersAt(target, fetch, ToolPaths[i]);
    }
  }

  /** An entry is in the existing list exactly when it names a tool path
      that answered 401 or 403, with that code. */
  lemma ExistingEntries(target: string, fetch: Request -> Probe, e: string)
    ensures e in ExistingTools(target, fetch) <==>
      exists i :: 0 <= i < |ToolPaths| && IsRestricted(ProbeOf(target, fetch, ToolPaths[i]))
                  && e == RestrictedEntry(ToolPaths[i], ProbeOf(target, fetch, ToolPaths[i]).status)
  {
    var f := RestrictedClassifier(target, fetch);
    CollectMember(ToolPaths, f, e);
    forall i | 0 <= i < |ToolPaths|
      ensures f(ToolPaths[i]) == Some(e) <==>
        IsRestricted(ProbeOf(target, fetch, ToolPaths[i]))
        && e == RestrictedEntry(ToolPaths[i], ProbeOf(target, fetch, ToolPaths[i]).status)
    {
      ClassifiersAt(target, fetch, ToolPaths[i]);
    }
  }

  /** Each denied tool path has its entry in the existing list. */
  lemma DeniedPathListed(target: string, fetch: Request -> Probe, i: nat)
    requires i < |ToolPaths| && IsRestricted(ProbeOf(target, fetch, ToolPaths[i]))
    ensures RestrictedEntry(ToolPaths[i], ProbeOf(target, fetch, ToolPaths[i]).status) in ExistingTools(target, fetch)
  {
    ExistingEntries(target, fetch, RestrictedEntry(ToolPaths[i], ProbeOf(target, fetch, ToolPaths[i]).status));
  }

  /** No path lands in both lists, so together they hold at most eight entries. */
  lemma ListsAreDisjoint(target: string, fetch: Request -> Probe)
    ensures forall i :: 0 <= i < |ToolPaths| ==>
      !(IsExposed(ProbeOf(target, fetch, ToolPaths[i])) && IsRestricted(ProbeOf(target, fetch, ToolPaths[i])))
    ensures |ExposedTools(target, fetch)| + |ExistingTools(target, fetch)| <= |ToolPaths|
  {
    var f := ExposedClassifier(target, fetch);
    var g := RestrictedClassifier(target, fetch);
    forall i | 0 <= i < |ToolPaths|
      ensures !(f(ToolPaths[i]).Some? && g(ToolPaths[i]).Some?)
    {
      ClassifiersAt(target, fetch, ToolPaths[i]);
    }
    CollectDisjointLength(ToolPaths, f, g);
  }

  /** The restricted result is present exactly when some path answered 401 or 403. */
  lemma RestrictedIffDenied(target: string, fetch: Request -> Probe)
    ensures |Results(target, fetch)| == 2 <==>
      exists i :: 0 <= i < |ToolPaths| && IsRestricted(ProbeOf(target, fetch, ToolPaths[i]))
  {
    var g := RestrictedClassifier(target, fetch);
    CollectEmptyIff(ToolPaths, g);
    SummarizeShape(ExposedTools(target, fetch), ExistingTools(target, fetch));
    forall i | 0 <= i < |ToolPaths|
      ensures g(ToolPaths[i]).Some? <==> IsRestricted(ProbeOf(target, fetch, ToolPaths[i]))
    {
      ClassifiersAt(target, fetch, ToolPaths[i]);
    }
  }

  /** %d renders the two denial codes as their three digits. */
  lemma RestrictedEntryText(path: string)
    ensures RestrictedEntry(path, 401) == path + " (Status: 401)"
    ensures RestrictedEntry(path, 403) == path + " (Status: 403)"
  {
    assert NatToDecimal(401) == "401";
    assert NatToDecimal(403) == "403";
  }

  /** Only the first 512 bytes count: a keyword beyond them does not expose a path. */
  lemma KeywordBeyondLimitIgnored(p: Probe)
    requires p.Resp? && p.status == 200
    requires |Delivered(p.body)| > ReadLimit
    requires !MentionsTool(Delivered(p.body)[..ReadLimit])
    ensures !IsExposed(p)
  {
  }
}
