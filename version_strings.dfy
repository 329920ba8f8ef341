/**
 * The composite version the compiler hands to the build agent:
 * "<package version>.<build number>", and the way a reader splits it
 * again at its last dot.
 */
module VersionStrings {
  import opened Wrappers

  function DigitChar(d: nat): (c: char)
    requires d < 10
    ensures '0' <= c <= '9'
  {
    "0123456789"[d]
  }

  predicate IsDigit(c: char) {
    '0' <= c <= '9'
  }

  predicate AllDigits(s: string) {
    forall i :: 0 <= i < |s| ==> IsDigit(s[i])
  }

  /** Decimal rendering of a build number, as Ruby's string interpolation writes it. */
  function NatToString(n: nat): (s: string)
    ensures |s| > 0 && AllDigits(s)
  {
    if n < 10 then [DigitChar(n)] else NatToString(n / 10) + [DigitChar(n % 10)]
  }

  /** The value of a string of decimal digits. */
  function DigitsValue(s: string): nat
    requires AllDigits(s)
  {
    if s == [] then 0
    else DigitsValue(s[..|s| - 1]) * 10 + (s[|s| - 1] as int - '0' as int)
  }

  function ParseNat(s: string): (r: Option<nat>)
    ensures r.Some? <==> |s| > 0 && AllDigits(s)
  {
    if |s| > 0 && AllDigits(s) then Some(DigitsValue(s)) else None
  }

  /** "<version>.<build>" */
  function VersionBuild(version: string, build: nat): string {
    version + "." + NatToString(build)
  }

  /** Index of the last occurrence of c in s (Ruby's String#rindex). */
  function LastIndexOf(s: string, c: char): (r: Option<nat>)
    ensures r.Some? ==> r.value < |s| && s[r.value] == c && forall i :: r.value < i < |s| ==> s[i] != c
    ensures r.None? ==> c !in s
  {
    if s == [] then None
    else if s[|s| - 1] == c then Some(|s| - 1)
    else LastIndexOf(s[..|s| - 1], c)
  }

  /** Split at the last dot into (version, build), as Ruby's ranges s[0..dot-1] and s[dot+1..-1]
      do: when the only dot is the first character, dot-1 is -1 and the version is the whole string. */
  function SplitVersionBuild(s: string): (r: Option<(string, string)>)
    ensures r.Some? ==> |s| > 0 && '.' !in r.value.1
    ensures r.Some? && s[0] == '.' && '.' !in s[1..] ==> r.value == (s, s[1..])
    ensures r.Some? && !(s[0] == '.' && '.' !in s[1..]) ==> r.value.0 + "." + r.value.1 == s
    ensures r.None? <==> '.' !in s
  {
    match LastIndexOf(s, '.')
    case None => None
    case Some(i) =>
      assert s[..i] + "." + s[i + 1..] == s by {
        assert s == s[..i] + [s[i]] + s[i + 1..];
      }
      if i == 0 then Some((s, s[1..])) else
        assert s[i] in s[1..] by { assert s[1..][i - 1] == s[i]; }
        Some((s[..i], s[i + 1..]))
  }

  lemma {:induction false} NatToStringValue(n: nat)
    ensures DigitsValue(NatToString(n)) == n
  {
    if n >= 10 {
      NatToStringValue(n / 10);
      var s := NatToString(n / 10) + [DigitChar(n % 10)];
      assert s[..|s| - 1] == NatToString(n / 10);
    }
  }

  /** Splitting the composite version at its last dot gives back the package version
      (which may itself contain dots) and the build number; an empty package version
      comes back as the whole string, as Ruby's s[0..-1] reads it. */
  lemma VersionBuildRoundTrip(version: string, build: nat)
    ensures version != "" ==> SplitVersionBuild(VersionBuild(version, build)) == Some((version, NatToString(build)))
    ensures version == "" ==> SplitVersionBuild(VersionBuild(version, build)) == Some(("." + NatToString(build), NatToString(build)))
    ensures ParseNat(NatToString(build)) == Some(build)
  {
    var b := NatToString(build);
    var s := VersionBuild(version, build);
    assert '.' !in b;
    LastDotBeforeDigits(version, b);
    NatToStringValue(build);
    if version == "" {
      assert s == "." + b && s[1..] == b;
    } else {
      assert s[..|version|] == version && s[|version| + 1..] == b;
    }
  }

  /** The last dot of "<version>.<b>" is the one before b when b has none. */
  lemma {:induction false} LastDotBeforeDigits(version: string, b: string)
    requires '.' !in b
    ensures LastIndexOf(version + "." + b, '.') == Some(|version|)
    decreases |b|
  {
    var s := version + "." + b;
    if b == [] {
      assert s[|s| - 1] == '.';
    } else {
      var shorter := b[..|b| - 1];
      assert s[..|s| - 1] == version + "." + shorter;
      assert s[|s| - 1] == b[|b| - 1] && b[|b| - 1] in b;
      LastDotBeforeDigits(version, shorter);
    }
  }
}
