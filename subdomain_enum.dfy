/**
 * The subdomain enumeration scan
 * (internal/scanner/scans/recon/subdomain_enum.go): take the host part of
 * the target, resolve five common subdomains of it, and report the ones
 * that resolve in a single result.
 */
module SubdomainEnum {
  import opened Common
  import opened Strings
  import opened Seqs

  function Name(): string
  {
    "Subdomain Enumeration"
  }

  const Subdomains: seq<string> := ["www", "api", "admin", "dev", "test"]

  const FoundText := "Found subdomains"
  const NoneFoundText := "No common subdomains found"
  const Separator := ", "

  /** extractDomain: the piece after the first "//" (up to the next "//",
      if any) when there is one, else the whole URL; then that piece up to
      its first '/'. */
  function ExtractDomain(url: string): (domain: string)
    ensures '/' !in domain
  {
    var parts := Split(url, "//");
    var rest := if |parts| > 1 then parts[1] else url;
    SplitSlashHead(rest);
    Split(rest, "/")[0]
  }

  /** `d` is the host part of `s`: a prefix of `s` without '/' that is all
      of `s` or is followed by '/'. */
  predicate IsHostPart(s: string, d: string)
  {
    HasPrefix(s, d) && '/' !in d && (d == s || s[|d|] == '/')
  }

  /** The reference definition of the host part, character by character. */
  function UpToSlash(s: string): (d: string)
    ensures IsHostPart(s, d)
  {
    if s == [] || s[0] == '/' then [] else [s[0]] + UpToSlash(s[1..])
  }

  /** The host part of a string is unique. */
  lemma HostPartUnique(s: string, a: string, b: string)
    requires IsHostPart(s, a) && IsHostPart(s, b)
    ensures a == b
  {
  }

  /** The first piece of a split on "/" is the host part. */
  lemma SplitSlashHead(s: string)
    ensures IsHostPart(s, Split(s, "/")[0])
  {
    match IndexOf(s, "/")
    case None =>
      forall c | c in s
        ensures c != '/'
      {
        var j :| 0 <= j < |s| && s[j] == c;
        assert !OccursAt(s, "/", j);
        assert s[j..j + 1] == [s[j]];
      }
    case Some(i) =>
      var d := s[..i];
      assert OccursAt(s, "/", i) && s[i..i + 1] == [s[i]];
      forall c | c in d
        ensures c != '/'
      {
        var j :| 0 <= j < |d| && d[j] == c;
        assert !OccursAt(s, "/", j);
        assert s[j..j + 1] == [s[j]];
      }
  }

  /** Cutting a string at a '/' keeps its host part. */
  lemma HostPartOfCut(s: string, k: nat)
    requires k < |s| && s[k] == '/'
    ensures UpToSlash(s[..k]) == UpToSlash(s)
  {
    var u := UpToSlash(s);
    assert IsHostPart(s[..k], u);
    HostPartUnique(s[..k], u, UpToSlash(s[..k]));
  }

  /** What follows the first "//", or the whole URL when there is none. */
  function AfterScheme(url: string): string
  {
    match IndexOf(url, "//")
    case None => url
    case Some(i) => url[i + 2..]
  }

  /** extractDomain agrees with the reference: the host part of what follows
      the first "//". */
  lemma ExtractDomainIsHostPart(url: string)
    ensures ExtractDomain(url) == UpToSlash(AfterScheme(url))
  {
    var parts := Split(url, "//");
    var rest := if |parts| > 1 then parts[1] else url;
    SplitSlashHead(rest);
    HostPartUnique(rest, Split(rest, "/")[0], UpToSlash(rest));
    match IndexOf(url, "//")
    case None =>
    case Some(i) =>
      var after := url[i + 2..];
      assert parts == [url[..i]] + Split(after, "//");
      assert rest == Split(after, "//")[0];
      match IndexOf(after, "//")
      case None =>
      case Some(k) =>
        assert rest == after[..k];
        assert OccursAt(after, "//", k) && after[k] == after[k..k + 2][0];
        HostPartOfCut(after, k);
  }

  /** A string without '/' splits into itself on "/" and on "//". */
  lemma SplitWithoutSlash(s: string, sep: string)
    requires '/' !in s && |sep| > 0 && sep[0] == '/'
    ensures Split(s, sep) == [s]
  {
  }

  /** Extracting twice is extracting once. */
  lemma ExtractDomainIdempotent(url: string)
    ensures ExtractDomain(ExtractDomain(url)) == ExtractDomain(url)
  {
    var d := ExtractDomain(url);
    SplitWithoutSlash(d, "//");
    SplitWithoutSlash(d, "/");
  }

  /** The name looked up for a subdomain. */
  function FullDomain(sub: string, domain: string): string
  {
    sub + "." + domain
  }

  function HostClassifier(domain: string, lookup: string -> bool): string -> Option<string>
  {
    sub => if lookup(FullDomain(sub, domain)) then Some(FullDomain(sub, domain)) else None
  }

  lemma HostClassifierAt(domain: string, lookup: string -> bool, sub: string)
    ensures HostClassifier(domain, lookup)(sub) ==
      if lookup(FullDomain(sub, domain)) then Some(FullDomain(sub, domain)) else None
  {
  }

  /** The names that resolve, in the order of Subdomains. */
  function Found(domain: string, lookup: string -> bool): seq<string>
  {
    Collect(Subdomains, HostClassifier(domain, lookup))
  }

  function FoundResult(target: string, hosts: seq<string>): ScanResult
  {
    ScanResult("Recon", FoundText, target, 0, Join(hosts, Separator), Name())
  }

  function NoneFound(target: string): ScanResult
  {
    ScanResult("Recon", NoneFoundText, target, 0, "", Name())
  }

  /** What Run returns, with `lookup` telling whether a name resolves. */
  function Results(target: string, lookup: string -> bool): seq<ScanResult>
  {
    var found := Found(ExtractDomain(target), lookup);
    if |found| > 0 then [FoundResult(target, found)] else [NoneFound(target)]
  }

  method Run(target: string, lookup: string -> bool) returns (results: seq<ScanResult>)
    ensures results == Results(target, lookup)
    ensures |results| == 1 && results[0].path == target && results[0].statusCode == 0
    ensures results[0].scanName == Name() && results[0].category == "Recon"
  {
    var domain := ExtractDomain(target);
    var subdomains := Subdomains;
    var found := [];
    for i := 0 to |subdomains|
      invariant found == Collect(subdomains[..i], HostClassifier(domain, lookup))
    {
      var sub := subdomains[i];
      TakeOneMore(subdomains, i);
      CollectSnoc(subdomains[..i], sub, HostClassifier(domain, lookup));
      HostClassifierAt(domain, lookup, sub);
      var fullDomain := FullDomain(sub, domain);
      if lookup(fullDomain) {
        found := found + [fullDomain];
      }
    }
    TakeAll(subdomains);
    if |found| > 0 {
      results := [FoundResult(target, found)];
    } else {
      results := [NoneFound(target)];
    }
  }

  /** A name is reported exactly when it is one of the five subdomains of the
      target's host and it resolves. */
  lemma FoundIff(domain: string, lookup: string -> bool, host: string)
    ensures host in Found(domain, lookup) <==>
      exists i :: 0 <= i < |Subdomains| && host == FullDomain(Subdomains[i], domain) && lookup(host)
  {
    CollectMember(Subdomains, HostClassifier(domain, lookup), host);
    forall i | 0 <= i < |Subdomains|
      ensures HostClassifier(domain, lookup)(Subdomains[i]) == Some(host) <==>
        host == FullDomain(Subdomains[i], domain) && lookup(host)
    {
      HostClassifierAt(domain, lookup, Subdomains[i]);
    }
  }

  /** Every found name appears in the detail of the single result. */
  lemma FoundNamesInDetail(target: string, lookup: string -> bool, k: nat)
    requires k < |Found(ExtractDomain(target), lookup)|
    ensures Results(target, lookup)[0].description == FoundText
    ensures Contains(Results(target, lookup)[0].detail, Found(ExtractDomain(target), lookup)[k])
  {
    JoinContains(Found(ExtractDomain(target), lookup), Separator, k);
  }

  /** Each joined element occurs in the joined string. */
  lemma {:induction false} JoinContains(xs: seq<string>, sep: string, k: nat)
    requires k < |xs|
    ensures Contains(Join(xs, sep), xs[k])
  {
    var s := Join(xs, sep);
    if |xs| == 1 {
      assert OccursAt(s, xs[0], 0);
    } else if k == 0 {
      assert s[..|xs[0]|] == xs[0];
      assert OccursAt(s, xs[0], 0);
    } else {
      JoinContains(xs[1..], sep, k - 1);
      var rest := Join(xs[1..], sep);
      var j :| 0 <= j <= |rest| - |xs[k]| && OccursAt(rest, xs[k], j);
      var off := |xs[0] + sep|;
      assert s == xs[0] + sep + rest;
      assert s[off + j..off + j + |xs[k]|] == rest[j..j + |xs[k]|];
      assert OccursAt(s, xs[k], off + j);
    }
  }

  /** "None found" exactly when none of the five names resolves. */
  lemma NoneFoundIff(target: string, lookup: string -> bool)
    ensures Results(target, lookup) == [NoneFound(target)] <==>
      forall i :: 0 <= i < |Subdomains| ==> !lookup(FullDomain(Subdomains[i], ExtractDomain(target)))
  {
    var domain := ExtractDomain(target);
    CollectEmptyIff(Subdomains, HostClassifier(domain, lookup));
    forall i | 0 <= i < |Subdomains|
      ensures HostClassifier(domain, lookup)(Subdomains[i]).None? <==> !lookup(FullDomain(Subdomains[i], domain))
    {
      HostClassifierAt(domain, lookup, Subdomains[i]);
    }
    assert |FoundText| != |NoneFoundText|;
  }
}
