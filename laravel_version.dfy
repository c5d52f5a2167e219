/**
 * The Laravel version scan
 * (internal/scanner/scans/recon/laravel_version_detection.go): read the
 * framework version from composer.json and composer.lock, look for an
 * exposed vendor folder, and guess a version range from the PHP version in
 * the X-Powered-By header.
 */
module LaravelVersion {
  import opened Common
  import opened Strings
  import opened Seqs

  function Name(): string
  {
    "Laravel Version Detection"
  }

  /** Every result of this scan carries category "Recon" and status 200. */
  function AddResult(description: string, path: string): ScanResult
  {
    ScanResult("Recon", description, path, 200, "", Name())
  }

  const ComposerJson := "/composer.json"
  const ComposerLock := "/composer.lock"
  const Framework := "laravel/framework"
  const VendorPath := "/vendor/"
  const ComposerFiles: seq<string> := [ComposerJson, ComposerLock]

  const DetectedFrom := "Laravel version detected from "
  const VendorText := "Possible Laravel installation detected via exposed vendor folder"
  const GuessedText := "Laravel version range guessed based on PHP version: "
  const UndetectedText := "Laravel version could not be detected"

  // ---------------------------------------------------------------------------
  // composer.json and composer.lock

  /** What json.Unmarshal into a map[string]interface{} leaves: the members
      of an object; for `null`, a nil map in which every lookup misses;
      any other value is an error. */
  function DecodeObject(parsed: Option<Json>): Option<map<string, Json>>
  {
    match parsed
    case Some(JObject(m)) => Some(m)
    case Some(JNull) => Some(map[])
    case _ => None
  }

  /** composer.json: require["laravel/framework"], when "require" is an
      object and that member is a string; "" otherwise. */
  function RequiredFramework(data: map<string, Json>): (v: string)
    ensures "require" in data && data["require"].JObject? && Framework in data["require"].fields
              && data["require"].fields[Framework].JString?
            ==> v == data["require"].fields[Framework].s
    ensures !("require" in data && data["require"].JObject? && Framework in data["require"].fields
              && data["require"].fields[Framework].JString?)
            ==> v == ""
  {
    if "require" in data && data["require"].JObject? then
      var require := data["require"].fields;
      if Framework in require && require[Framework].JString? then require[Framework].s else ""
    else ""
  }

  /** A composer.lock package entry naming the framework with a string version. */
  predicate IsFrameworkEntry(p: Json)
  {
    && p.JObject?
    && "name" in p.fields && p.fields["name"] == JString(Framework)
    && "version" in p.fields && p.fields["version"].JString?
  }

  /** The version of the first framework entry of a composer.lock "packages" list. */
  function LockedFramework(packages: seq<Json>): string
  {
    if packages == [] then ""
    else if IsFrameworkEntry(packages[0]) then packages[0].fields["version"].s
    else LockedFramework(packages[1..])
  }

  /** The first framework entry decides: earlier non-objects, other names and
      framework entries without a string version are passed over. */
  lemma {:induction false} LockedFrameworkIsFirstEntry(packages: seq<Json>, k: nat)
    requires k < |packages| && IsFrameworkEntry(packages[k])
    requires forall j :: 0 <= j < k ==> !IsFrameworkEntry(packages[j])
    ensures LockedFramework(packages) == packages[k].fields["version"].s
  {
    if k > 0 {
      LockedFrameworkIsFirstEntry(packages[1..], k - 1);
    }
  }

  /** Without a framework entry, composer.lock yields nothing. */
  lemma {:induction false} LockedFrameworkAbsent(packages: seq<Json>)
    requires forall j :: 0 <= j < |packages| ==> !IsFrameworkEntry(packages[j])
    ensures LockedFramework(packages) == ""
  {
    if packages != [] {
      LockedFrameworkAbsent(packages[1..]);
    }
  }

  /** The version checkComposerFile reports for a manifest, "" for none. */
  function ComposerVersion(target: string, path: string, fetch: Request -> Probe, parse: string -> Option<Json>): string
  {
    var probe := fetch(Plain(ProbeUrl(target, path)));
    if probe.TransportErr? || probe.status != 200 || probe.body.ReadErr? then ""
    else
      match DecodeObject(parse(probe.body.bytes))
      case None => ""
      case Some(data) =>
        if path == ComposerJson then RequiredFramework(data)
        else if path == ComposerLock && "packages" in data && data["packages"].JArray? then
          LockedFramework(data["packages"].items)
        else ""
  }

  /** checkComposerFile: fetch a manifest and look the framework version up in it. */
  method CheckComposerFile(target: string, path: string, fetch: Request -> Probe, parse: string -> Option<Json>)
    returns (version: string)
    ensures version == ComposerVersion(target, path, fetch, parse)
    ensures version != "" ==> fetch(Plain(ProbeUrl(target, path))).Resp? && fetch(Plain(ProbeUrl(target, path))).status == 200
  {
    var url := ProbeUrl(target, path);
    var probe := fetch(Plain(url));
    if probe.TransportErr? || probe.status != HttpOk {
      return "";
    }
    if probe.body.ReadErr? {
      return "";
    }
    var decoded := DecodeObject(parse(probe.body.bytes));
    if decoded.None? {
      return "";
    }
    var data := decoded.value;
    if path == ComposerJson {
      if "require" in data && data["require"].JObject? {
        var require := data["require"].fields;
        if Framework in require && require[Framework].JString? {
          return require[Framework].s;
        }
      }
    }
    if path == ComposerLock {
      if "packages" in data && data["packages"].JArray? {
        var packages := data["packages"].items;
        var i := 0;
        while i < |packages|
          invariant 0 <= i <= |packages|
          invariant LockedFramework(packages) == LockedFramework(packages[i..])
        {
          var pkg := packages[i];
          if pkg.JObject? && "name" in pkg.fields && pkg.fields["name"].JString? && pkg.fields["name"].s == Framework {
            if "version" in pkg.fields && pkg.fields["version"].JString? {
              assert IsFrameworkEntry(packages[i..][0]);
              return pkg.fields["version"].s;
            }
          }
          assert packages[i..][1..] == packages[i + 1..];
          i := i + 1;
        }
      }
    }
    return "";
  }

  // ---------------------------------------------------------------------------
  // the vendor folder

  /** checkVendorFolder: /vendor/ answers 200 with a readable listing that
      mentions the framework package or a Symfony package. */
  function VendorExposed(target: string, fetch: Request -> Probe): (exposed: bool)
    ensures exposed <==>
      var p := fetch(Plain(ProbeUrl(target, VendorPath)));
      p.Resp? && p.status == 200 && p.body.Content?
      && (Contains(p.body.bytes, Framework) || Contains(p.body.bytes, "symfony/"))
  {
    var probe := fetch(Plain(ProbeUrl(target, VendorPath)));
    if probe.TransportErr? || probe.status != 200 then false
    else
      match probe.body
      case ReadErr(_, _) => false
      case Content(body) => Contains(body, Framework) || Contains(body, "symfony/")
  }

  // ---------------------------------------------------------------------------
  // the PHP version in X-Powered-By

  predicate IsVersionChar(c: char)
  {
    IsDigit(c) || c == '.'
  }

  /** The longest prefix of `s` made of digits and dots (the greedy [\d\.]+). */
  function VersionRun(s: string): (r: string)
    ensures HasPrefix(s, r)
    ensures forall i :: 0 <= i < |r| ==> IsVersionChar(r[i])
    ensures |r| < |s| ==> !IsVersionChar(s[|r|])
    ensures |s| > 0 && IsVersionChar(s[0]) ==> |r| >= 1
  {
    if s != [] && IsVersionChar(s[0]) then [s[0]] + VersionRun(s[1..]) else []
  }

  /** The pattern PHP/([\d\.]+) can match starting at index `i`. */
  predicate MatchAt(h: string, i: int)
  {
    OccursAt(h, "PHP/", i) && i + 4 < |h| && IsVersionChar(h[i + 4])
  }

  /** The leftmost index at or after `from` where the pattern matches. */
  function MatchFrom(h: string, from: nat): (r: Option<nat>)
    ensures r.Some? ==> from <= r.value && MatchAt(h, r.value)
    ensures r.Some? ==> forall j :: from <= j < r.value ==> !MatchAt(h, j)
    ensures r.None? ==> forall j :: from <= j ==> !MatchAt(h, j)
    decreases |h| - from
  {
    if from + 4 >= |h| then None
    else if MatchAt(h, from) then Some(from)
    else MatchFrom(h, from + 1)
  }

  /** The capture group of PHP/([\d\.]+) in the header, by leftmost match:
      the run of digits and dots after the first "PHP/" that is followed by
      at least one of them. */
  function PhpVersion(header: string): (v: Option<string>)
    ensures v.Some? <==> exists i :: 0 <= i <= |header| && MatchAt(header, i)
    ensures v.Some? ==> |v.value| >= 1
  {
    match MatchFrom(header, 0)
    case None => None
    case Some(i) => Some(VersionRun(header[i + 4..]))
  }

  /** The capture is the maximal version run at the leftmost match. */
  lemma PhpVersionIsLeftmostMaximal(header: string, i: nat)
    requires MatchAt(header, i)
    requires forall j :: 0 <= j < i ==> !MatchAt(header, j)
    ensures PhpVersion(header) == Some(VersionRun(header[i + 4..]))
  {
    var m := MatchFrom(header, 0);
    assert m == Some(i);
  }

  /** The switch of guessVersionFromPHP: the first matching prefix decides. */
  function LaravelRange(phpVersion: string): (r: string)
    ensures r != ""
  {
    if HasPrefix(phpVersion, "7.2") then "Laravel 5.6.x - 6.x"
    else if HasPrefix(phpVersion, "7.3") then "Laravel 6.x - 7.x"
    else if HasPrefix(phpVersion, "7.4") then "Laravel 7.x - 8.x"
    else if HasPrefix(phpVersion, "8.0") then "Laravel 8.x - 9.x"
    else if HasPrefix(phpVersion, "8.1") then "Laravel 9.x - 11.x"
    else if HasPrefix(phpVersion, "8.2") then "Laravel 10.x - 11.x"
    else "Unknown Laravel version (based on PHP version " + phpVersion + ")"
  }

  /** The PHP-to-Laravel table in the order it is consulted. */
  const RangeTable: seq<(string, string)> := [
    ("7.2", "Laravel 5.6.x - 6.x"),
    ("7.3", "Laravel 6.x - 7.x"),
    ("7.4", "Laravel 7.x - 8.x"),
    ("8.0", "Laravel 8.x - 9.x"),
    ("8.1", "Laravel 9.x - 11.x"),
    ("8.2", "Laravel 10.x - 11.x")
  ]

  /** The answer is that of the first table row whose prefix the version has. */
  lemma LaravelRangeIsFirstRow(phpVersion: string, k: nat)
    requires k < |RangeTable| && HasPrefix(phpVersion, RangeTable[k].0)
    requires forall j :: 0 <= j < k ==> !HasPrefix(phpVersion, RangeTable[j].0)
    ensures LaravelRange(phpVersion) == RangeTable[k].1
  {
    if k > 0 { assert !HasPrefix(phpVersion, RangeTable[0].0); }
    if k > 1 { assert !HasPrefix(phpVersion, RangeTable[1].0); }
    if k > 2 { assert !HasPrefix(phpVersion, RangeTable[2].0); }
    if k > 3 { assert !HasPrefix(phpVersion, RangeTable[3].0); }
    if k > 4 { assert !HasPrefix(phpVersion, RangeTable[4].0); }
  }

  /** A version with none of the table's prefixes is reported as unknown. */
  lemma LaravelRangeUnknown(phpVersion: string)
    requires forall j :: 0 <= j < |RangeTable| ==> !HasPrefix(phpVersion, RangeTable[j].0)
    ensures LaravelRange(phpVersion) == "Unknown Laravel version (based on PHP version " + phpVersion + ")"
  {
    assert !HasPrefix(phpVersion, RangeTable[0].0);
    assert !HasPrefix(phpVersion, RangeTable[1].0);
    assert !HasPrefix(phpVersion, RangeTable[2].0);
    assert !HasPrefix(phpVersion, RangeTable[3].0);
    assert !HasPrefix(phpVersion, RangeTable[4].0);
    assert !HasPrefix(phpVersion, RangeTable[5].0);
  }

  /** Prefixes, not versions, are compared: "8.10" answers as 8.1. */
  lemma LaravelRangeExamples()
    ensures LaravelRange("7.4.33") == "Laravel 7.x - 8.x"
    ensures LaravelRange("8.10") == "Laravel 9.x - 11.x"
  {
    assert HasPrefix("7.4.33", "7.4") by { assert "7.4.33"[..3] == "7.4"; }
    assert !HasPrefix("7.4.33", "7.2") by { assert "7.4.33"[2] != "7.2"[2]; }
    assert !HasPrefix("7.4.33", "7.3") by { assert "7.4.33"[2] != "7.3"[2]; }
    assert HasPrefix("8.10", "8.1") by { assert "8.10"[..3] == "8.1"; }
    assert !HasPrefix("8.10", "7.2") by { assert "8.10"[0] != "7.2"[0]; }
    assert !HasPrefix("8.10", "7.3") by { assert "8.10"[0] != "7.3"[0]; }
    assert !HasPrefix("8.10", "7.4") by { assert "8.10"[0] != "7.4"[0]; }
    assert !HasPrefix("8.10", "8.0") by { assert "8.10"[2] != "8.0"[2]; }
  }

  /** guessVersionFromPHP: "" when the plain request to the target fails,
      is not a 200, has no X-Powered-By or no PHP version in it. */
  function GuessFromPhp(target: string, fetch: Request -> Probe): string
  {
    var probe := fetch(Plain(target));
    if probe.TransportErr? || probe.status != 200 then ""
    else if probe.poweredBy == "" then ""
    else
      match PhpVersion(probe.poweredBy)
      case None => ""
      case Some(v) => LaravelRange(v)
  }

  /** The guess is empty exactly in the four failure cases. */
  lemma GuessEmptyIff(target: string, fetch: Request -> Probe)
    ensures GuessFromPhp(target, fetch) == "" <==>
      var p := fetch(Plain(target));
      p.TransportErr? || p.status != 200 || p.poweredBy == "" || PhpVersion(p.poweredBy).None?
  {
  }

  /** The version read from the header "PHP/7.4" is "7.4". */
  lemma PhpVersionOf74()
    ensures PhpVersion("PHP/7.4") == Some("7.4")
  {
    var h := "PHP/7.4";
    assert MatchAt(h, 0) by { assert h[0..4] == "PHP/"; }
    PhpVersionIsLeftmostMaximal(h, 0);
    assert VersionRun(h[4..]) == "7.4" by {
      assert h[4..] == "7.4";
      assert VersionRun("") == "";
      assert "7.4"[1..] == ".4" && ".4"[1..] == "4" && "4"[1..] == "";
    }
  }

  /** Version "7.4" falls in the third row of the table. */
  lemma LaravelRangeOf74()
    ensures LaravelRange("7.4") == "Laravel 7.x - 8.x"
  {
    assert HasPrefix("7.4", "7.4");
    assert !HasPrefix("7.4", "7.2") by { assert "7.4"[2] != "7.2"[2]; }
    assert !HasPrefix("7.4", "7.3") by { assert "7.4"[2] != "7.3"[2]; }
  }

  /** A 200 answer with X-Powered-By "PHP/7.4" is guessed as Laravel 7.x - 8.x. */
  lemma GuessForPhp74(target: string, fetch: Request -> Probe)
    requires fetch(Plain(target)).Resp? && fetch(Plain(target)).status == 200
    requires fetch(Plain(target)).poweredBy == "PHP/7.4"
    ensures GuessFromPhp(target, fetch) == "Laravel 7.x - 8.x"
  {
    PhpVersionOf74();
    LaravelRangeOf74();
  }

  // ---------------------------------------------------------------------------
  // Run

  /** The result for a version read from a manifest. */
  function ManifestResult(path: string, version: string): ScanResult
  {
    AddResult(DetectedFrom + path + ": " + version, path)
  }

  function ManifestFinding(target: string, fetch: Request -> Probe, parse: string -> Option<Json>): string -> Option<ScanResult>
  {
    path =>
      var version := ComposerVersion(target, path, fetch, parse);
      if version != "" then Some(ManifestResult(path, version)) else None
  }

  lemma ManifestFindingAt(target: string, fetch: Request -> Probe, parse: string -> Option<Json>, path: string)
    ensures ManifestFinding(target, fetch, parse)(path) ==
      var version := ComposerVersion(target, path, fetch, parse);
      if version != "" then Some(ManifestResult(path, version)) else None
  {
  }

  /** The composer.json and composer.lock results, in that order. */
  function ManifestFindings(target: string, fetch: Request -> Probe, parse: string -> Option<Json>): seq<ScanResult>
  {
    Collect(ComposerFiles, ManifestFinding(target, fetch, parse))
  }

  function VendorFinding(target: string, fetch: Request -> Probe): seq<ScanResult>
  {
    if VendorExposed(target, fetch)
    then [AddResult(VendorText, VendorPath)]
    else []
  }

  function GuessFinding(target: string, fetch: Request -> Probe): seq<ScanResult>
  {
    var guess := GuessFromPhp(target, fetch);
    if guess != "" then [AddResult(GuessedText + guess, target)] else []
  }

  /** What Run appends, in order: composer.json, composer.lock, /vendor/, the PHP guess. */
  function Findings(target: string, fetch: Request -> Probe, parse: string -> Option<Json>): seq<ScanResult>
  {
    ManifestFindings(target, fetch, parse) + VendorFinding(target, fetch) + GuessFinding(target, fetch)
  }

  function Undetected(target: string): ScanResult
  {
    AddResult(UndetectedText, target)
  }

  function Results(target: string, fetch: Request -> Probe, parse: string -> Option<Json>): seq<ScanResult>
  {
    var found := Findings(target, fetch, parse);
    if found == [] then [Undetected(target)] else found
  }

  method Run(target: string, fetch: Request -> Probe, parse: string -> Option<Json>) returns (results: seq<ScanResult>)
    ensures results == Results(target, fetch, parse)
    ensures 1 <= |results| <= 4
    ensures forall r :: r in results ==> r.scanName == Name() && r.category == "Recon" && r.statusCode == 200
  {
    results := [];
    var composerFiles := ComposerFiles;
    for i := 0 to |composerFiles|
      invariant results == Collect(composerFiles[..i], ManifestFinding(target, fetch, parse))
    {
      var filePath := composerFiles[i];
      TakeOneMore(composerFiles, i);
      CollectSnoc(composerFiles[..i], filePath, ManifestFinding(target, fetch, parse));
      ManifestFindingAt(target, fetch, parse, filePath);
      var version := CheckComposerFile(target, filePath, fetch, parse);
      if version != "" {
        results := results + [ManifestResult(filePath, version)];
      }
    }
    TakeAll(composerFiles);
    assert results == ManifestFindings(target, fetch, parse);
    if VendorExposed(target, fetch) {
      results := results + [AddResult(VendorText, VendorPath)];
    }
    assert results == ManifestFindings(target, fetch, parse) + VendorFinding(target, fetch);
    var version := GuessFromPhp(target, fetch);
    if version != "" {
      results := results + [AddResult(GuessedText + version, target)];
    }
    assert results == Findings(target, fetch, parse);
    if |results| == 0 {
      results := results + [Undetected(target)];
    }
    ResultsShape(target, fetch, parse);
  }

  /** At most one result per check, each tagged with this scan, "Recon" and 200. */
  lemma ResultsShape(target: string, fetch: Request -> Probe, parse: string -> Option<Json>)
    ensures 1 <= |Results(target, fetch, parse)| <= 4
    ensures forall r :: r in Results(target, fetch, parse) ==> r.scanName == Name() && r.category == "Recon" && r.statusCode == 200
  {
    var m := ManifestFindings(target, fetch, parse);
    var v := VendorFinding(target, fetch);
    var g := GuessFinding(target, fetch);
    ManifestFindingsShape(target, fetch, parse);
    assert |v| <= 1 && forall r :: r in v ==> r.scanName == Name() && r.category == "Recon" && r.statusCode == 200;
    assert |g| <= 1 && forall r :: r in g ==> r.scanName == Name() && r.category == "Recon" && r.statusCode == 200;
    assert Findings(target, fetch, parse) == m + v + g;
  }

  lemma ManifestFindingsShape(target: string, fetch: Request -> Probe, parse: string -> Option<Json>)
    ensures |ManifestFindings(target, fetch, parse)| <= 2
    ensures forall r :: r in ManifestFindings(target, fetch, parse) ==> r.scanName == Name() && r.category == "Recon" && r.statusCode == 200
  {
    var files := ComposerFiles;
    var f := ManifestFinding(target, fetch, parse);
    forall r | r in ManifestFindings(target, fetch, parse)
      ensures r.scanName == Name() && r.category == "Recon" && r.statusCode == 200
    {
      CollectMember(files, f, r);
      var i :| 0 <= i < |files| && f(files[i]) == Some(r);
      ManifestFindingAt(target, fetch, parse, files[i]);
    }
  }

  /** The fallback is returned exactly when none of the four checks produced a result. */
  lemma FallbackIffNothingDetected(target: string, fetch: Request -> Probe, parse: string -> Option<Json>)
    ensures Findings(target, fetch, parse) == [] <==>
      && ComposerVersion(target, ComposerJson, fetch, parse) == ""
      && ComposerVersion(target, ComposerLock, fetch, parse) == ""
      && !VendorExposed(target, fetch)
      && GuessFromPhp(target, fetch) == ""
    ensures Undetected(target) in Results(target, fetch, parse) <==> Findings(target, fetch, parse) == []
  {
    var files := ComposerFiles;
    var f := ManifestFinding(target, fetch, parse);
    CollectEmptyIff(files, f);
    ManifestFindingAt(target, fetch, parse, ComposerJson);
    ManifestFindingAt(target, fetch, parse, ComposerLock);
    assert files[0] == ComposerJson && files[1] == ComposerLock;
    UndetectedIsNoFinding(target, fetch, parse);
  }

  /** The fallback's text differs from that of every other result. */
  lemma UndetectedIsNoFinding(target: string, fetch: Request -> Probe, parse: string -> Option<Json>)
    ensures Undetected(target) !in Findings(target, fetch, parse)
  {
    UndetectedNotManifest(target, fetch, parse);
    var guess := GuessFromPhp(target, fetch);
    TextsDiffer(GuessedText, guess);
  }

  lemma UndetectedNotManifest(target: string, fetch: Request -> Probe, parse: string -> Option<Json>)
    ensures Undetected(target) !in ManifestFindings(target, fetch, parse)
  {
    var files := ComposerFiles;
    var f := ManifestFinding(target, fetch, parse);
    if Undetected(target) in ManifestFindings(target, fetch, parse) {
      CollectMember(files, f, Undetected(target));
      var i :| 0 <= i < |files| && f(files[i]) == Some(Undetected(target));
      ManifestFindingAt(target, fetch, parse, files[i]);
      TextsDiffer(DetectedFrom, files[i] + ": " + ComposerVersion(target, files[i], fetch, parse));
      assert false;
    }
  }

  /** Both result texts that start like the fallback's part from it at index 16. */
  lemma TextsDiffer(head: string, tail: string)
    requires head == GuessedText || head == DetectedFrom
    ensures head + tail != UndetectedText
  {
    assert (head + tail)[16] != UndetectedText[16];
  }
}
