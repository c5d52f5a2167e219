/**
 * The pieces of Go's strings and fmt packages the scans use, on strings
 * of characters: Contains, HasPrefix, TrimRight with the cutset "/", Split,
 * Join and the decimal rendering of %d.
 */
module Strings {
  import opened Common

  /** `sub` occurs in `s` starting at index `i`. */
  predicate OccursAt(s: string, sub: string, i: int)
  {
    0 <= i && i + |sub| <= |s| && s[i..i + |sub|] == sub
  }

  /** strings.Contains: some occurrence exists (the empty string occurs everywhere). */
  predicate Contains(s: string, sub: string)
  {
    exists i | 0 <= i <= |s| - |sub| :: OccursAt(s, sub, i)
  }

  /** The header test `s != "" && strings.Contains(s, sub)`. */
  predicate NonEmptyContains(s: string, sub: string)
  {
    s != "" && Contains(s, sub)
  }

  /** For a non-empty `sub`, the emptiness test adds nothing to the
      substring test. */
  lemma NonEmptyContainsIff(s: string, sub: string)
    requires sub != ""
    ensures NonEmptyContains(s, sub) <==> Contains(s, sub)
  {
    if Contains(s, sub) {
      var i :| 0 <= i <= |s| - |sub| && OccursAt(s, sub, i);
      assert |s| >= |sub|;
    }
  }

  /** strings.HasPrefix. */
  predicate HasPrefix(s: string, p: string)
  {
    |p| <= |s| && s[..|p|] == p
  }

  /** An occurrence of `a + b` holds an occurrence of `b`. */
  lemma ContainsSuffixOf(s: string, a: string, b: string)
    requires Contains(s, a + b)
    ensures Contains(s, b)
  {
    var i :| 0 <= i <= |s| - |a + b| && OccursAt(s, a + b, i);
    assert s[i + |a|..i + |a| + |b|] == s[i..i + |a + b|][|a|..];
    assert OccursAt(s, b, i + |a|);
  }

  /** An occurrence inside a prefix of `s` is an occurrence in `s`. */
  lemma ContainsInPrefix(s: string, k: nat, sub: string)
    requires k <= |s| && Contains(s[..k], sub)
    ensures Contains(s, sub)
  {
    var i :| 0 <= i <= k - |sub| && OccursAt(s[..k], sub, i);
    assert s[i..i + |sub|] == s[..k][i..i + |sub|];
    assert OccursAt(s, sub, i);
  }

  /** strings.TrimRight(s, "/"): drop every trailing '/'. The result is the
      prefix of `s` that does not end in '/' and is followed only by '/'. */
  function TrimRightSlash(s: string): (r: string)
    ensures HasPrefix(s, r)
    ensures r == [] || r[|r| - 1] != '/'
    ensures forall i :: |r| <= i < |s| ==> s[i] == '/'
    decreases |s|
  {
    if |s| > 0 && s[|s| - 1] == '/' then TrimRightSlash(s[..|s| - 1]) else s
  }

  /** The URL a scan requests for a path: `strings.TrimRight(target, "/") + path`. */
  function ProbeUrl(target: string, path: string): string
  {
    TrimRightSlash(target) + path
  }

  /** Trimming twice is trimming once, so a target already ending in a path
      separator and the same target without it probe the same URLs. */
  lemma {:induction false} ProbeUrlIgnoresTrailingSlashes(target: string, path: string)
    ensures ProbeUrl(target + "/", path) == ProbeUrl(target, path)
    ensures TrimRightSlash(TrimRightSlash(target)) == TrimRightSlash(target)
  {
    assert (target + "/")[..|target + "/"| - 1] == target;
  }

  /** The first index at or after `from` where `sep` occurs. */
  function IndexFrom(s: string, sep: string, from: nat): (r: Option<nat>)
    requires |sep| > 0
    ensures r.Some? ==> from <= r.value && OccursAt(s, sep, r.value)
    ensures r.Some? ==> forall j :: from <= j < r.value ==> !OccursAt(s, sep, j)
    ensures r.None? ==> forall j :: from <= j ==> !OccursAt(s, sep, j)
    decreases |s| - from
  {
    if from + |sep| > |s| then None
    else if s[from..from + |sep|] == sep then Some(from)
    else IndexFrom(s, sep, from + 1)
  }

  /** strings.Index for a non-empty separator: the first occurrence. */
  function IndexOf(s: string, sep: string): (r: Option<nat>)
    requires |sep| > 0
    ensures r.Some? ==> OccursAt(s, sep, r.value)
    ensures r.Some? ==> forall j :: 0 <= j < r.value ==> !OccursAt(s, sep, j)
    ensures r.None? <==> !Contains(s, sep)
  {
    IndexFrom(s, sep, 0)
  }

  /** strings.Split for a non-empty separator: the pieces between successive
      occurrences, left to right; always at least one piece. */
  function Split(s: string, sep: string): (parts: seq<string>)
    requires |sep| > 0
    ensures |parts| >= 1
    decreases |s|
  {
    match IndexOf(s, sep)
    case None => [s]
    case Some(i) => [s[..i]] + Split(s[i + |sep|..], sep)
  }

  /** strings.Join. */
  function Join(xs: seq<string>, sep: string): string
  {
    if |xs| == 0 then ""
    else if |xs| == 1 then xs[0]
    else xs[0] + sep + Join(xs[1..], sep)
  }

  predicate IsDigit(c: char)
  {
    '0' <= c <= '9'
  }

  /** fmt's %d of a non-negative integer. */
  function NatToDecimal(n: nat): (r: string)
    ensures |r| >= 1
    ensures forall i :: 0 <= i < |r| ==> IsDigit(r[i])
  {
    if n < 10 then [DigitChar(n)] else NatToDecimal(n / 10) + [DigitChar(n % 10)]
  }

  function DigitChar(d: nat): (c: char)
    requires d < 10
    ensures IsDigit(c)
  {
    (d + '0' as int) as char
  }

  /** The value of a string of decimal digits, read most significant first. */
  function DecimalValue(s: string): nat
    requires forall i :: 0 <= i < |s| ==> IsDigit(s[i])
  {
    if s == [] then 0
    else
      assert IsDigit(s[|s| - 1]);
      10 * DecimalValue(s[..|s| - 1]) + (s[|s| - 1] as int - '0' as int)
  }

  /** Reading back the rendering of %d gives the number printed. */
  lemma {:induction false} DecimalRoundTrip(n: nat)
    ensures DecimalValue(NatToDecimal(n)) == n
  {
    var r := NatToDecimal(n);
    if n >= 10 {
      DecimalRoundTrip(n / 10);
      assert r[..|r| - 1] == NatToDecimal(n / 10);
    }
  }
}
