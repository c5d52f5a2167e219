# larascan scan classification, in Dafny

larascan is a Laravel security scanner. It runs ten scans against a target
URL. Each scan's `Run` probes a fixed, ordered list of paths or host names.
It then turns what each probe returned into a list of `ScanResult` records.
A probe can return a transport error, a status code, a body that failed to
read, text in the body, the `X-Powered-By` header, or cookie names.

This project models that per-scan decision logic. The transport is an
oracle `fetch: Request -> Probe`: a transport error, or a response with its
status, its `X-Powered-By` value, its cookie names and its body. The body is
either its content or a read error. The JSON decoder is an oracle
`parse: string -> Option<Json>`, and DNS resolution is `lookup: string -> bool`.

Modules:

- `Common`: `ScanResult` (types.go), the probe outcome, requests (plain, or with the scanner's User-Agent), JSON values, `RenderStyled`.
- `Strings`: substring search, the non-empty-header test, prefix, trailing-slash trimming and probe URLs, `strings.Split`/`Join`, decimal rendering.
- `Seqs`: `Collect`, the ordered filter-map that every "append when it matches" loop computes, and its lemmas.
- One module per scan:
  - `FrameworkDetection`
  - `LaravelVersion`
  - `Livewire`
  - `PhpVersionScan`
  - `SubdomainEnum`
  - `HostHeaderInjection`
  - `CsrfToken`
  - `DebugMode`
  - `SensitiveFiles`
  - `ToolsDetection`
- `Scans`: the `Scan` interface as a datatype of the ten registered scans, with name and run dispatch.

Where the source loops and appends, the model is a `method` with a loop. It
is proved equal to a specification function, and the properties are lemmas
about that function. Where the source only branches (debug mode, PHP
version, the vendor check, the PHP-to-Laravel table), the model is a
function.

## Model

| member | source | states |
|---|---|---|
| Strings.TrimRightSlash | internal/scanner/scans/recon/laravel_version_detection.go:65 | the result is a prefix of the target, does not end in '/', and every dropped character is '/' |
| Strings.ProbeUrlIgnoresTrailingSlashes | internal/scanner/scans/vulnerabilities/csrf_token.go:33 | a probe URL is unchanged by a trailing '/' on the target; trimming is idempotent |
| Strings.IndexOf | internal/scanner/scans/recon/subdomain_enum.go:59 | the separator occurs at the returned index and nowhere before it; None exactly when it does not occur |
| Strings.DecimalRoundTrip | internal/scanner/scans/vulnerabilities/tools_detection.go:68 | the `%d` rendering of a status code reads back as the same number |
| Seqs.CollectMember | internal/scanner/scans/recon/framework_detection.go:58-69 | an element is collected exactly when some input maps to it (the append-on-match loop) |
| Seqs.CollectEmptyIff | internal/scanner/scans/vulnerabilities/sensitive_files_detection.go:78 | the collected list is empty exactly when no input matches |
| Seqs.CollectCorrespond | internal/scanner/scans/recon/framework_detection.go:58-69 | two selections with the same matching inputs have the same length, and correspond element by element in order |
| Seqs.CollectDisjointLength | internal/scanner/scans/vulnerabilities/tools_detection.go:54-69 | two selections matching disjoint inputs hold together at most as many entries as there are inputs |
| FrameworkDetection.Run | internal/scanner/scans/recon/framework_detection.go:23-83 | the result list is the header finding followed by the cookie findings, or the single fallback; at least one result, all tagged by this scan |
| FrameworkDetection.ScanCookies | internal/scanner/scans/recon/framework_detection.go:58-69 | the cookie loop appends one finding per cookie whose name contains "laravel", in cookie order |
| FrameworkDetection.ResultsShape | internal/scanner/scans/recon/framework_detection.go:28-80 | every result has path target and category Recon; a transport error gives exactly one "Failed to make request" result with status 0 and the error text; otherwise every result carries the response status |
| FrameworkDetection.CookieFindingsName | internal/scanner/scans/recon/framework_detection.go:58-69 | one cookie finding per cookie name containing "laravel" (case-sensitive), in order, with the cookie name as detail |
| FrameworkDetection.DetectedCount | internal/scanner/scans/recon/framework_detection.go:46-80 | for a response, the number of results is max(1, [header names PHP] + number of laravel cookies) |
| FrameworkDetection.DetectedOrder | internal/scanner/scans/recon/framework_detection.go:46-69 | the header finding, with the header value as detail, comes first; then the cookie findings in cookie order |
| FrameworkDetection.NotDetectedIff | internal/scanner/scans/recon/framework_detection.go:72-80 | "Laravel framework not detected" exactly when the header does not contain "PHP" and no cookie name contains "laravel" |
| LaravelVersion.RequiredFramework | internal/scanner/scans/recon/laravel_version_detection.go:80-86 | composer.json gives require["laravel/framework"] when "require" is an object and that member is a string, and "" otherwise |
| LaravelVersion.LockedFrameworkIsFirstEntry | internal/scanner/scans/recon/laravel_version_detection.go:87-98 | composer.lock gives the version of the first package that is an object, is named "laravel/framework" and has a string version; earlier entries of other shapes are skipped |
| LaravelVersion.LockedFrameworkAbsent | internal/scanner/scans/recon/laravel_version_detection.go:87-100 | with no such package, composer.lock gives "" |
| LaravelVersion.CheckComposerFile | internal/scanner/scans/recon/laravel_version_detection.go:64-101 | the early-exit package loop returns the manifest's framework version; a non-empty version implies the manifest answered 200 |
| LaravelVersion.VendorExposed | internal/scanner/scans/recon/laravel_version_detection.go:104-120 | /vendor/ counts exactly when it answers 200 with a readable body containing "laravel/framework" or "symfony/" |
| LaravelVersion.VersionRun | internal/scanner/scans/recon/laravel_version_detection.go:137 | the maximal leading run of digits and dots |
| LaravelVersion.MatchFrom | internal/scanner/scans/recon/laravel_version_detection.go:137-138 | the first position at or after `from` where "PHP/" is followed by a digit or dot, or None when there is none |
| LaravelVersion.PhpVersion | internal/scanner/scans/recon/laravel_version_detection.go:137-142 | a capture exists exactly when "PHP/" followed by a digit or dot occurs, and it is non-empty |
| LaravelVersion.PhpVersionIsLeftmostMaximal | internal/scanner/scans/recon/laravel_version_detection.go:137-142 | the capture is the maximal run of digits and dots after the leftmost matching "PHP/" |
| LaravelVersion.LaravelRange | internal/scanner/scans/recon/laravel_version_detection.go:145-160 | the guess is never empty |
| LaravelVersion.LaravelRangeIsFirstRow | internal/scanner/scans/recon/laravel_version_detection.go:145-157 | the answer is that of the first prefix among 7.2, 7.3, 7.4, 8.0, 8.1, 8.2 that the version starts with |
| LaravelVersion.LaravelRangeUnknown | internal/scanner/scans/recon/laravel_version_detection.go:158-159 | a version with none of the prefixes gives "Unknown Laravel version (based on PHP version " + v + ")" |
| LaravelVersion.LaravelRangeExamples | internal/scanner/scans/recon/laravel_version_detection.go:150-155 | "7.4.33" gives "Laravel 7.x - 8.x"; "8.10" gives the 8.1 answer |
| LaravelVersion.GuessEmptyIff | internal/scanner/scans/recon/laravel_version_detection.go:123-161 | the guess is "" exactly when the request fails, the status is not 200, or the header has no capture |
| LaravelVersion.PhpVersionOf74 | internal/scanner/scans/recon/laravel_version_detection.go:137-142 | "PHP/7.4" captures "7.4" |
| LaravelVersion.LaravelRangeOf74 | internal/scanner/scans/recon/laravel_version_detection.go:150-151 | "7.4" maps to "Laravel 7.x - 8.x" |
| LaravelVersion.GuessForPhp74 | internal/scanner/scans/recon/laravel_version_detection.go:123-151 | a 200 answer with X-Powered-By "PHP/7.4" gives "Laravel 7.x - 8.x" |
| LaravelVersion.Run | internal/scanner/scans/recon/laravel_version_detection.go:28-52 | results in the order composer.json, composer.lock, /vendor/, PHP guess, else the fallback; 1 to 4 results, all tagged by this scan, category Recon, status 200 |
| LaravelVersion.ResultsShape | internal/scanner/scans/recon/laravel_version_detection.go:48-62 | every run gives 1 to 4 results, each with this scan's name, category Recon and status 200 |
| LaravelVersion.ManifestFindingsShape | internal/scanner/scans/recon/laravel_version_detection.go:30-37 | the two manifests give at most two results, tagged like every other |
| LaravelVersion.FallbackIffNothingDetected | internal/scanner/scans/recon/laravel_version_detection.go:48-50 | nothing is detected exactly when both manifests give "", the vendor check fails and the guess is ""; the fallback appears exactly then |
| LaravelVersion.UndetectedIsNoFinding | internal/scanner/scans/recon/laravel_version_detection.go:35-50 | the fallback is never one of the findings |
| LaravelVersion.UndetectedNotManifest | internal/scanner/scans/recon/laravel_version_detection.go:35 | no manifest finding reads like the fallback |
| LaravelVersion.TextsDiffer | internal/scanner/scans/recon/laravel_version_detection.go:35-49 | a message built from a finding prefix differs from the fallback message |
| Livewire.BulletsHoldEntries | internal/scanner/scans/recon/livewire.go:108-113 | every entry stands in the built list as "  - " + entry + terminator |
| Livewire.VulnerabilitiesForV2 | internal/scanner/scans/recon/livewire.go:103-114 | the v2 list is "  - " + entry + " " |
| Livewire.VulnerabilitiesForV3 | internal/scanner/scans/recon/livewire.go:117-128 | the v3 list is "  - " + entry + "\n" |
| Livewire.PathFinding | internal/scanner/scans/recon/livewire.go:37-86 | a path yields a result exactly when it answers 200, with its relative path and status 200; "window.livewire_token" wins over "window.livewireScriptConfig"; v2 and v3 results carry their vulnerability lists; a read error carries its text |
| Livewire.Run | internal/scanner/scans/recon/livewire.go:26-100 | the results are the per-path findings in probe order, or the fallback; 1 to 4 results, all named "Livewire Scan", category Recon |
| Livewire.ResultsShape | internal/scanner/scans/recon/livewire.go:47-97 | 1 to 4 results, each named "Livewire Scan" with category Recon |
| Livewire.FallbackIffNoScript | internal/scanner/scans/recon/livewire.go:89-97 | "Livewire not detected" is the only result exactly when no script path answered 200 |
| Livewire.ResultPathsAndStatus | internal/scanner/scans/recon/livewire.go:51-95 | a result has status 200 exactly when it is a script finding, with a script path; status 0 only for the fallback |
| Strings.NonEmptyContainsIff | internal/scanner/scans/recon/php_version.go:45 | the `!= ""` test adds nothing to a substring test for a non-empty pattern, as in the X-Powered-By tests of this scan and of framework detection |
| PhpVersionScan.Classify | internal/scanner/scans/recon/php_version.go:26-62 | one result with path target and category Recon; a transport error gives "Failed to make request", status 0 and the error text; a response gives its status |
| PhpVersionScan.Run | internal/scanner/scans/recon/php_version.go:21-65 | exactly one result, with path target, category Recon and this scan's name |
| PhpVersionScan.FoundIff | internal/scanner/scans/recon/php_version.go:44-53 | "X-Powered-By header found" exactly when the header contains "PHP", with the header as detail |
| PhpVersionScan.NotFoundOtherwise | internal/scanner/scans/recon/php_version.go:54-62 | otherwise "X-Powered-By header not found" with the response status and no detail |
| SubdomainEnum.ExtractDomain | internal/scanner/scans/recon/subdomain_enum.go:57-65 | the extracted domain contains no '/' |
| SubdomainEnum.UpToSlash | internal/scanner/scans/recon/subdomain_enum.go:63-64 | reference definition: the host part of a string, a '/'-free prefix ending at its end or before a '/' |
| SubdomainEnum.HostPartUnique | internal/scanner/scans/recon/subdomain_enum.go:63-64 | a string has one host part |
| SubdomainEnum.ExtractDomainIsHostPart | internal/scanner/scans/recon/subdomain_enum.go:57-65 | extractDomain is the host part of what follows the first "//" (the whole URL when there is none) |
| SubdomainEnum.ExtractDomainIdempotent | internal/scanner/scans/recon/subdomain_enum.go:57-65 | extracting twice is extracting once |
| SubdomainEnum.Run | internal/scanner/scans/recon/subdomain_enum.go:18-55 | the lookup loop gives exactly one result, path target, status 0, category Recon |
| SubdomainEnum.FoundIff | internal/scanner/scans/recon/subdomain_enum.go:20-28 | a name is found exactly when it is sub + "." + domain for one of www, api, admin, dev, test, and it resolves |
| SubdomainEnum.FoundNamesInDetail | internal/scanner/scans/recon/subdomain_enum.go:35-43 | with something found, the result is "Found subdomains" and its detail contains every found name |
| SubdomainEnum.JoinContains | internal/scanner/scans/recon/subdomain_enum.go:42 | each joined name occurs in the joined text |
| SubdomainEnum.NoneFoundIff | internal/scanner/scans/recon/subdomain_enum.go:44-51 | "No common subdomains found" exactly when none of the five names resolves |
| HostHeaderInjection.CheckPasswordRecoveryUrls | internal/scanner/scans/recon/host_header_injection.go:105-121 | true exactly when /forgot-password or /auth/forgot-password answers 200; paths are probed in order and probing stops at the first success |
| HostHeaderInjection.Run | internal/scanner/scans/recon/host_header_injection.go:26-102 | 1 or 2 results, all with path target, category Recon and this scan's name |
| HostHeaderInjection.ClassifyShape | internal/scanner/scans/recon/host_header_injection.go:39-98 | 1 or 2 results, all with path target and category Recon |
| HostHeaderInjection.StatusOfResults | internal/scanner/scans/recon/host_header_injection.go:37-98 | a transport error gives exactly the failure result with status 0 and the error text; otherwise every result carries the response status |
| HostHeaderInjection.ReadErrorResult | internal/scanner/scans/recon/host_header_injection.go:51-62 | a read error gives exactly "Failed to read response body" with its error text |
| HostHeaderInjection.InjectedResults | internal/scanner/scans/recon/host_header_injection.go:67-89 | a body containing "malicious.com" gives "Host Header Injection detected" first, and two results exactly when a recovery page exists |
| HostHeaderInjection.NotInjectedResult | internal/scanner/scans/recon/host_header_injection.go:91-99 | otherwise the only result is "No Host Header Injection detected" |
| HostHeaderInjection.SecondResultNeedsInjection | internal/scanner/scans/recon/host_header_injection.go:79-89 | two results exactly when injection was detected and a recovery page exists; they are the injection and the takeover warning |
| CsrfToken.HasTokenIffUnderscoreToken | internal/scanner/scans/vulnerabilities/csrf_token.go:63 | containing "csrf_token" or "_token" is containing "_token" |
| CsrfToken.PathResult | internal/scanner/scans/vulnerabilities/csrf_token.go:35-80 | each probe gives one result with the relative path; a transport error gives status 0 and the error text; a response gives its status |
| CsrfToken.Outcomes | internal/scanner/scans/vulnerabilities/csrf_token.go:32-81 | one result per probed path, the i-th for the i-th path |
| CsrfToken.Run | internal/scanner/scans/vulnerabilities/csrf_token.go:22-94 | exactly three results, for "/", "/login", "/register" in that order |
| CsrfToken.FoundIff | internal/scanner/scans/vulnerabilities/csrf_token.go:63-71 | "CSRF token found" exactly for a readable body containing "_token", with "CSRF token found on " + url as detail |
| CsrfToken.FoundTextStandsApart | internal/scanner/scans/vulnerabilities/csrf_token.go:39-76 | the found message differs from the other three messages |
| CsrfToken.ResultsFollowPaths | internal/scanner/scans/vulnerabilities/csrf_token.go:32-44 | the i-th result names the i-th path; a failed request carries status 0 and the error text |
| CsrfToken.FallbackUnreachable | internal/scanner/scans/vulnerabilities/csrf_token.go:83-91 | the loop never leaves the list empty, so the fallback never fires |
| DebugMode.Classify | internal/scanner/scans/vulnerabilities/debug_mode.go:27-88 | one result with the error URL as path and category Vulnerabilities; status 0 with the failure text exactly on a transport error, whose text is the detail; otherwise the response status |
| DebugMode.Run | internal/scanner/scans/vulnerabilities/debug_mode.go:23-91 | exactly one result, with path target + "/nonexistentpage" |
| DebugMode.EnabledIff | internal/scanner/scans/vulnerabilities/debug_mode.go:44-68 | "Debug mode is enabled!" exactly for a readable 500 body containing the Whoops text or "exception" |
| DebugMode.DisabledIff | internal/scanner/scans/vulnerabilities/debug_mode.go:69-78 | "Debug mode is disabled." exactly for a readable 500 body without them |
| DebugMode.ReadFailure | internal/scanner/scans/vulnerabilities/debug_mode.go:45-56 | a read error on a 500 gives the read-failure result with status 500 and the error text |
| DebugMode.BodyIgnoredUnless500 | internal/scanner/scans/vulnerabilities/debug_mode.go:79-88 | any other status gives "Could not determine debug mode status.", whatever the body |
| DebugMode.NoSlashTrimming | internal/scanner/scans/vulnerabilities/debug_mode.go:25 | a trailing '/' on the target is kept: "//nonexistentpage" |
| SensitiveFiles.Run | internal/scanner/scans/vulnerabilities/sensitive_files_detection.go:52-89 | the findings for the exposed paths among the 21, or the fallback; at least one result, all tagged by this scan |
| SensitiveFiles.ScanPaths | internal/scanner/scans/vulnerabilities/sensitive_files_detection.go:54-86 | the loop and the fallback give the specified results for any path list |
| SensitiveFiles.ProbePaths | internal/scanner/scans/vulnerabilities/sensitive_files_detection.go:54-76 | `exposed` is the exposed paths in probe order, and `results` has one finding per exposed path, kept in lockstep |
| SensitiveFiles.ProbePath | internal/scanner/scans/vulnerabilities/sensitive_files_detection.go:55-75 | one path is appended, with its finding, exactly when it is exposed |
| SensitiveFiles.FindingsFor | internal/scanner/scans/vulnerabilities/sensitive_files_detection.go:66-74 | the k-th finding is for the k-th exposed path: path, status 200, "Exposed path: " + path |
| SensitiveFiles.ExposedIff | internal/scanner/scans/vulnerabilities/sensitive_files_detection.go:57-66 | a path is exposed exactly when it is probed, answers 200, its body reads, and the body is non-empty |
| SensitiveFiles.ResultsCount | internal/scanner/scans/vulnerabilities/sensitive_files_detection.go:54-86 | the number of results is max(1, exposed count), and the count is at most the path count; the fallback is the only result exactly when nothing is exposed |
| SensitiveFiles.ResultsTagged | internal/scanner/scans/vulnerabilities/sensitive_files_detection.go:68-81 | every result is a Vulnerabilities result of this scan |
| SensitiveFiles.AtMostTwentyOne | internal/scanner/scans/vulnerabilities/sensitive_files_detection.go:27-49 | a run reports at most 21 results |
| SensitiveFiles.NoneExposedIff | internal/scanner/scans/vulnerabilities/sensitive_files_detection.go:78-86 | the fallback is the only result exactly when no probed path is exposed |
| SensitiveFiles.FindingAt | internal/scanner/scans/vulnerabilities/sensitive_files_detection.go:54-76 | the k-th result reports the k-th exposed path, which was probed and is exposed |
| SensitiveFiles.EnvFileReported | internal/scanner/scans/vulnerabilities/sensitive_files_detection.go:28-75 | an exposed "/.env" is reported with path "/.env" |
| ToolsDetection.LimitedBody | internal/scanner/scans/vulnerabilities/tools_detection.go:51 | the text examined is the first min(512, n) of the n delivered bytes; a read error is ignored |
| ToolsDetection.MentionsAnyIffSome | internal/scanner/scans/vulnerabilities/tools_detection.go:56-63 | the chain of substring tests holds exactly when some keyword occurs |
| ToolsDetection.MentionsToolUnrolled | internal/scanner/scans/vulnerabilities/tools_detection.go:56-63 | the keyword test is the eight named substring tests |
| ToolsDetection.FormatRestricted | internal/scanner/scans/vulnerabilities/tools_detection.go:68 | the entry is path + " (Status: " + decimal code + ")" |
| ToolsDetection.RestrictedEntryText | internal/scanner/scans/vulnerabilities/tools_detection.go:68 | the entries for 401 and 403 read "(Status: 401)" and "(Status: 403)" |
| ToolsDetection.ListsSnoc | internal/scanner/scans/vulnerabilities/tools_detection.go:43-72 | one more probe appends to at most one of the two lists |
| ToolsDetection.ListsAreSelections | internal/scanner/scans/vulnerabilities/tools_detection.go:43-72 | the two accumulators are the exposed and the existing selections of the paths, in probe order |
| ToolsDetection.ProbeTools | internal/scanner/scans/vulnerabilities/tools_detection.go:29-72 | the loop fills both lists as specified, skipping transport errors |
| ToolsDetection.Report | internal/scanner/scans/vulnerabilities/tools_detection.go:74-104 | the summary of the two lists: 1 or 2 results tagged by this scan |
| ToolsDetection.Run | internal/scanner/scans/vulnerabilities/tools_detection.go:27-105 | 1 or 2 results, all tagged by this scan |
| ToolsDetection.SummarizeShape | internal/scanner/scans/vulnerabilities/tools_detection.go:76-102 | exactly one of the exposed result (status 200) or the none-exposed result (path "", status 0) comes first; the access-restricted result with status 403 follows exactly when the existing list is non-empty |
| ToolsDetection.ExposedMembership | internal/scanner/scans/vulnerabilities/tools_detection.go:54-65 | a path is listed exposed exactly when it is a tool path whose probe shows an exposed tool |
| ToolsDetection.ExistingEntries | internal/scanner/scans/vulnerabilities/tools_detection.go:66-69 | an entry is in the existing list exactly when it names a tool path that answered 401 or 403, with that code |
| ToolsDetection.DeniedPathListed | internal/scanner/scans/vulnerabilities/tools_detection.go:66-69 | every tool path answering 401 or 403 has its entry in the existing list |
| ToolsDetection.ListsAreDisjoint | internal/scanner/scans/vulnerabilities/tools_detection.go:54-69 | no tool path is both exposed and restricted, so together the two lists hold at most eight entries |
| ToolsDetection.RestrictedIffDenied | internal/scanner/scans/vulnerabilities/tools_detection.go:94-102 | two results exactly when some tool path answered 401 or 403 |
| ToolsDetection.KeywordBeyondLimitIgnored | internal/scanner/scans/vulnerabilities/tools_detection.go:51-63 | a keyword past the first 512 bytes does not expose a path |
| Scans.Run | internal/common/types.go:14-17 | every scan returns at least one result, each carrying that scan's name |
| Scans.RunRecon | internal/scanner/scanner.go:18-25 | the six recon scans each return at least one result named after the scan |
| Scans.RunVulnerabilities | internal/scanner/scanner.go:26-31 | the four vulnerability scans each return at least one result named after the scan |

## Left out

- The orchestrator `RunScans` in internal/scanner/scanner.go is not modelled. It is goroutines, a channel semaphore and a WaitGroup, and its output order is nondeterministic. The registry order comes from a Go map, so `Scans` lists the scans without an order between categories.
- cmd/main.go is not part of this model. It is flag parsing, printing and exit codes.
- HTTP transport, body reading, `Header.Get` and `Cookies()` are the `fetch` oracle. The probe outcome carries the header value ("" when absent), the cookie names in order, and the body or the read error. Request timeouts and `Body.Close` are not modelled.
- Bodies are `string` (sequences of characters), not bytes. The 512-byte limit in tools detection counts characters.
- `encoding/json` is the `parse` oracle returning a `Json` value. Decoding into a map is modelled: an object gives its members, `null` gives an empty map, and anything else is an error. Byte-level parsing is not modelled.
- The regular expression `PHP/([\d\.]+)` is a hand-written leftmost scanner (`LaravelVersion.MatchFrom`, `LaravelVersion.VersionRun`), not a regex engine.
- `renderStyled` and the `color` library are the identity on the message (`Common.RenderStyled`). ANSI escape codes are not modelled.
- `net.LookupHost` is the `lookup` oracle. The 500 ms `time.Sleep` between lookups is left out.
- `fmt.Sprintf` is written out as concatenation; `%d` is `Strings.NatToDecimal`, for codes 0 to 999.
- Each scan's constructor and its HTTP client (`New...Scan`, the 10-second timeout) are not modelled; the oracle stands in for the client.
- CsrfToken.Run: the "No CSRF tokens found on common paths" fallback is kept in the method, and `CsrfToken.FallbackUnreachable` proves it never fires.
- Scans.Run: states only the shape common to all scans, at least one result named after the scan; each module's own `Run` states the full result.
