/**
 * The Livewire scan (internal/scanner/scans/recon/livewire.go): request the
 * four usual locations of the Livewire script and classify each one that
 * answers 200 as version 2, version 3 or unknown version.
 */
module Livewire {
  import opened Common
  import opened Strings
  import opened Seqs

  function Name(): string
  {
    "Livewire Scan"
  }

  function ScriptPaths(): seq<string>
  {
    [
      "/vendor/livewire/livewire.js",
      "/vendor/livewire/livewire.min.js",
      "/livewire/livewire.js",
      "/livewire/livewire.min.js"
    ]
  }

  const V2Entries: seq<string> := [
    "Improper Input Validation >=2.2.4, <2.2.6: https://github.com/livewire/livewire/pull/1659"
  ]

  const V3Entries: seq<string> := [
    "Cross-site Scripting (XSS) >=3.3.5, <3.4.9: https://www.cve.org/CVERecord?id=CVE-2024-21504"
  ]

  const V2Marker := "window.livewire_token"
  const V3Marker := "window.livewireScriptConfig"

  /** The list built by appending "  - " + entry + `end` for each entry in turn. */
  function Bullets(entries: seq<string>, end: string): string
  {
    if entries == [] then "" else Bullets(entries[..|entries| - 1], end) + "  - " + entries[|entries| - 1] + end
  }

  /** Every entry of the list stands in it, marked and terminated. */
  lemma {:induction false} BulletsHoldEntries(entries: seq<string>, end: string, k: nat)
    requires k < |entries|
    ensures Contains(Bullets(entries, end), "  - " + entries[k] + end)
  {
    var b := Bullets(entries, end);
    var init := Bullets(entries[..|entries| - 1], end);
    var item := "  - " + entries[k] + end;
    if k == |entries| - 1 {
      assert b == init + item;
      assert b[|init|..|init| + |item|] == item;
      assert OccursAt(b, item, |init|);
    } else {
      BulletsHoldEntries(entries[..|entries| - 1], end, k);
      assert entries[..|entries| - 1][k] == entries[k];
      assert b == init + ("  - " + entries[|entries| - 1] + end);
      ContainsInPrefix(b, |init|, item);
    }
  }

  function V2Detail(): string
  {
    Bullets(V2Entries, " ")
  }

  function V3Detail(): string
  {
    Bullets(V3Entries, "\n")
  }

  /** getVulnerabilitiesForV2: each known version-2 issue as "  - <entry> ". */
  method VulnerabilitiesForV2() returns (detail: string)
    ensures detail == V2Detail()
    ensures detail == "  - " + V2Entries[0] + " "
  {
    detail := "";
    for i := 0 to |V2Entries|
      invariant detail == Bullets(V2Entries[..i], " ")
    {
      assert V2Entries[..i + 1][..i] == V2Entries[..i];
      detail := detail + "  - " + V2Entries[i] + " ";
    }
    assert V2Entries[..|V2Entries|] == V2Entries;
  }

  /** getVulnerabilitiesForV3: each known version-3 issue as "  - <entry>\n". */
  method VulnerabilitiesForV3() returns (detail: string)
    ensures detail == V3Detail()
    ensures detail == "  - " + V3Entries[0] + "\n"
  {
    detail := "";
    for i := 0 to |V3Entries|
      invariant detail == Bullets(V3Entries[..i], "\n")
    {
      assert V3Entries[..i + 1][..i] == V3Entries[..i];
      detail := detail + "  - " + V3Entries[i] + "\n";
    }
    assert V3Entries[..|V3Entries|] == V3Entries;
  }

  /** What one script path contributes to the results. */
  function PathFinding(target: string, path: string, probe: Probe): (r: Option<ScanResult>)
    // a failed request or a status other than 200 contributes nothing
    ensures r.Some? <==> probe.Resp? && probe.status == 200
    ensures r.Some? ==> r.value.path == path && r.value.statusCode == 200
    ensures r.Some? ==> r.value.scanName == Name() && r.value.category == "Recon"
    // the version-2 marker wins over the version-3 marker
    ensures r.Some? && probe.body.Content? && Contains(probe.body.bytes, V2Marker) ==> r.value.detail == V2Detail()
    ensures r.Some? && probe.body.Content? && !Contains(probe.body.bytes, V2Marker) && Contains(probe.body.bytes, V3Marker)
      ==> r.value.detail == V3Detail()
    ensures r.Some? && probe.body.ReadErr? ==> r.value.detail == probe.body.msg
  {
    var url := ProbeUrl(target, path);
    match probe
    case TransportErr(_) => None
    case Resp(status, _, _, body) =>
      if status != 200 then None
      else
        match body
        case ReadErr(_, msg) =>
          Some(ScanResult("Recon", RenderStyled("Failed to read Livewire file content from " + url, "error"), path, status, msg, Name()))
        case Content(text) =>
          if Contains(text, V2Marker) then
            Some(ScanResult("Recon", RenderStyled("Livewire detected: Version 2.x at " + url, "success"), path, status, V2Detail(), Name()))
          else if Contains(text, V3Marker) then
            Some(ScanResult("Recon", "Livewire detected: Version 3.x at " + url, path, status, V3Detail(), Name()))
          else
            Some(ScanResult("Recon", "Livewire detected at " + url + ", but unable to determine version", path, status, "", Name()))
  }

  function Classifier(target: string, fetch: Request -> Probe): string -> Option<ScanResult>
  {
    path => PathFinding(target, path, fetch(Plain(ProbeUrl(target, path))))
  }

  lemma ClassifierAt(target: string, fetch: Request -> Probe, path: string)
    ensures Classifier(target, fetch)(path) == PathFinding(target, path, fetch(Plain(ProbeUrl(target, path))))
  {
  }

  /** The findings of the path loop, in probe order. */
  function Findings(target: string, fetch: Request -> Probe): seq<ScanResult>
  {
    Collect(ScriptPaths(), Classifier(target, fetch))
  }

  function NotDetected(target: string): ScanResult
  {
    ScanResult("Recon", "Livewire not detected", target, 0, "", Name())
  }

  /** What Run returns: the findings, or the single "not detected" result. */
  function Results(target: string, fetch: Request -> Probe): seq<ScanResult>
  {
    var found := Findings(target, fetch);
    if found == [] then [NotDetected(target)] else found
  }

  method Run(target: string, fetch: Request -> Probe) returns (results: seq<ScanResult>)
    ensures results == Results(target, fetch)
    ensures 1 <= |results| <= |ScriptPaths()|
    ensures forall r :: r in results ==> r.scanName == Name() && r.category == "Recon"
  {
    results := [];
    var paths := ScriptPaths();
    for i := 0 to |paths|
      invariant results == Collect(paths[..i], Classifier(target, fetch))
    {
      var path := paths[i];
      var url := ProbeUrl(target, path);
      var probe := fetch(Plain(url));
      TakeOneMore(paths, i);
      CollectSnoc(paths[..i], path, Classifier(target, fetch));
      ClassifierAt(target, fetch, path);
      if probe.TransportErr? || probe.status != 200 {
        continue;
      }
      var status := probe.status;
      match probe.body {
        case ReadErr(_, msg) =>
          results := results + [ScanResult("Recon", RenderStyled("Failed to read Livewire file content from " + url, "error"), path, status, msg, Name())];
          continue;
        case Content(body) =>
          if Contains(body, V2Marker) {
            var detail := VulnerabilitiesForV2();
            results := results + [ScanResult("Recon", RenderStyled("Livewire detected: Version 2.x at " + url, "success"), path, status, detail, Name())];
          } else if Contains(body, V3Marker) {
            var detail := VulnerabilitiesForV3();
            results := results + [ScanResult("Recon", "Livewire detected: Version 3.x at " + url, path, status, detail, Name())];
          } else {
            results := results + [ScanResult("Recon", "Livewire detected at " + url + ", but unable to determine version", path, status, "", Name())];
          }
      }
    }
    TakeAll(paths);
    if |results| == 0 {
      results := results + [NotDetected(target)];
    }
    ResultsShape(target, fetch);
  }

  /** Between one and four results, each tagged with this scan. */
  lemma ResultsShape(target: string, fetch: Request -> Probe)
    ensures 1 <= |Results(target, fetch)| <= |ScriptPaths()|
    ensures forall r :: r in Results(target, fetch) ==> r.scanName == Name() && r.category == "Recon"
  {
    var f := Classifier(target, fetch);
    forall r | r in Findings(target, fetch)
      ensures r.scanName == Name() && r.category == "Recon"
    {
      CollectMember(ScriptPaths(), f, r);
      var i :| 0 <= i < |ScriptPaths()| && f(ScriptPaths()[i]) == Some(r);
      ClassifierAt(target, fetch, ScriptPaths()[i]);
    }
  }

  /** A path contributes exactly when it answers 200; the "not detected"
      fallback is returned exactly when none does. */
  lemma {:induction false} FallbackIffNoScript(target: string, fetch: Request -> Probe)
    ensures Findings(target, fetch) == [] <==>
      forall i :: 0 <= i < |ScriptPaths()| ==>
        var p := fetch(Plain(ProbeUrl(target, ScriptPaths()[i]))); p.TransportErr? || p.status != 200
    ensures Results(target, fetch) == [NotDetected(target)] <==> Findings(target, fetch) == []
  {
    var f := Classifier(target, fetch);
    CollectEmptyIff(ScriptPaths(), f);
    var found := Findings(target, fetch);
    if found != [] {
      CollectMember(ScriptPaths(), f, found[0]);
    }
  }

  /** Non-fallback results name a script path and carry status 200; the
      fallback names the target and carries status 0. */
  lemma {:induction false} ResultPathsAndStatus(target: string, fetch: Request -> Probe, r: ScanResult)
    requires r in Results(target, fetch)
    ensures r.statusCode == 200 <==> r.path in ScriptPaths() && r.statusCode != 0
    ensures r.statusCode == 0 ==> r == NotDetected(target)
  {
    var f := Classifier(target, fetch);
    if r in Findings(target, fetch) {
      CollectMember(ScriptPaths(), f, r);
      var i :| 0 <= i < |ScriptPaths()| && f(ScriptPaths()[i]) == Some(r);
      ClassifierAt(target, fetch, ScriptPaths()[i]);
    }
  }
}
