/** License provenance (internal/license/source.go and the resolution steps of
    cmd/parsing-worker/license_provenance.go and registry_resolvers.go): which of
    several sources names a package's license, and why none does. */
module Provenance {
  import opened Text

  // ---------------------------------------------------------------------
  // Source strings
  // ---------------------------------------------------------------------

  const SourceDeclared := "declared"
  const SourceGitHub := "github"
  const ModifierLatest := "latest"
  const ModifierNormalized := "normalized"
  const ReasonFirstParty := "first-party"
  const ReasonNotPublished := "not-published"
  const ReasonNoLicenseUpstream := "no-license-upstream"
  const ReasonNoPURL := "no-purl"
  const ReasonUnsupported := "unsupported-ecosystem"
  const ReasonUnresolved := "unresolved"

  predicate IsUnresolvedReason(source: string) {
    source in [ReasonFirstParty, ReasonNoPURL, ReasonUnsupported, ReasonNotPublished, ReasonNoLicenseUpstream, ReasonUnresolved]
  }

  function NegativeCacheValue(reason: string): string {
    if reason == "" then "" else "!" + reason
  }

  function SplitCacheValue(v: string): (string, string) {
    if HasPrefix(v, "!") then ("", v[1..]) else (v, "")
  }

  /** Encoding a reason or a license and splitting it again gives it back; a
      license does exactly when it does not begin with the negative marker. */
  lemma CacheValueRoundTrip(reason: string, lic: string)
    ensures SplitCacheValue(NegativeCacheValue(reason)) == ("", reason) && (NegativeCacheValue(reason) == "" <==> reason == "")
    ensures SplitCacheValue(lic) == (lic, "") <==> lic == "" || lic[0] != '!'
  {
  }

  /** The parts of a string between plus signs. */
  function Split(s: string, part: string): (r: seq<string>)
    ensures r != []
  {
    if s == [] then [part]
    else if s[0] == '+' then [part] + Split(s[1..], [])
    else Split(s[1..], part + [s[0]])
  }

  function WithModifier(source: string, modifier: string): string {
    if source == "" || modifier == "" || modifier in Split(source, [])[1..] then source
    else source + "+" + modifier
  }

  lemma {:induction false} SplitAppend(s: string, part: string, tail: string)
    ensures Split(s + "+" + tail, part) == Split(s, part) + Split(tail, [])
  {
    if s == [] {
      assert (s + "+" + tail)[1..] == tail;
    } else {
      assert (s + "+" + tail)[1..] == s[1..] + "+" + tail;
      if s[0] == '+' { SplitAppend(s[1..], [], tail); } else { SplitAppend(s[1..], part + [s[0]], tail); }
    }
  }

  lemma {:induction false} SplitPlain(s: string, part: string)
    requires '+' !in s
    ensures Split(s, part) == [part + s]
  {
    if s != [] {
      SplitPlain(s[1..], part + [s[0]]);
      assert part + [s[0]] + s[1..] == part + s;
    } else {
      assert part + s == part;
    }
  }

  /** The text begins with the part, which a plus sign or the end follows. */
  predicate BeginsWith(s: string, part: string) {
    part <= s && (|s| == |part| || s[|part|] == '+')
  }

  /** The modifier stands behind some plus sign of the source. */
  ghost predicate Modified(source: string, modifier: string) {
    exists i :: 0 <= i < |source| && source[i] == '+' && BeginsWith(source[i + 1..], modifier)
  }

  lemma {:induction false} SplitHead(s: string, part: string, m: string)
    requires '+' !in m
    ensures Split(s, part)[0] == part + m <==> BeginsWith(s, m)
  {
    if s != [] && s[0] != '+' {
      SplitStarts(s[1..], part + [s[0]]);
      var head := Split(s, part)[0];
      assert head[|part|] == s[0];
      if m != [] && s[0] == m[0] {
        SplitHead(s[1..], part + [s[0]], m[1..]);
        assert m == [m[0]] + m[1..] && part + m == part + [s[0]] + m[1..];
        assert s == [s[0]] + s[1..];
        assert m <= s <==> m[1..] <= s[1..];
      } else if m != [] {
        assert (part + m)[|part|] == m[0];
      }
    }
  }

  lemma {:induction false} SplitStarts(s: string, part: string)
    ensures part <= Split(s, part)[0]
  {
    if s != [] && s[0] != '+' { SplitStarts(s[1..], part + [s[0]]); }
  }

  lemma {:induction false} SplitRest(s: string, part: string, m: string)
    requires '+' !in m
    ensures m in Split(s, part)[1..] <==> Modified(s, m)
  {
    if s != [] {
      var rest := s[1..];
      assert forall i :: 0 <= i < |rest| ==> rest[i] == s[i + 1] && rest[i + 1..] == s[i + 1 + 1..];
      assert forall i :: 0 < i < |s| ==> s[i] == rest[i - 1] && s[i + 1..] == rest[i - 1 + 1..];
      if s[0] == '+' {
        SplitRest(rest, [], m);
        SplitHead(rest, [], m);
        var parts := Split(rest, []);
        assert parts == [parts[0]] + parts[1..] && [] + m == m;
        assert s[0 + 1..] == rest;
      } else {
        SplitRest(rest, part + [s[0]], m);
      }
    }
  }

  /** A modifier is appended behind a plus sign, unless there is no source, no
      modifier, or the source carries it already. */
  lemma WithModifierMeans(source: string, modifier: string)
    requires '+' !in modifier
    ensures WithModifier(source, modifier) ==
            if source == "" || modifier == "" || Modified(source, modifier) then source else source + "+" + modifier
  {
    SplitRest(source, [], modifier);
  }

  /** A modifier is recorded once, however often it is added. */
  lemma WithModifierIdempotent(source: string, modifier: string)
    requires '+' !in modifier
    ensures WithModifier(WithModifier(source, modifier), modifier) == WithModifier(source, modifier)
  {
    if source != "" && modifier != "" {
      SplitAppend(source, [], modifier);
      SplitPlain(modifier, []);
      assert [] + modifier == modifier;
      var parts := Split(source, []) + [modifier];
      assert parts[1..] == Split(source, [])[1..] + [modifier];
      assert modifier in parts[1..];
    }
  }

  lemma ReasonsArePlain(source: string)
    requires IsUnresolvedReason(source)
    ensures '+' !in source
  {
  }

  lemma ModifiedIsNoReason(source: string, modifier: string)
    ensures IsUnresolvedReason(WithModifier(source, modifier)) ==> IsUnresolvedReason(source)
  {
    var modified := WithModifier(source, modifier);
    if modified != source {
      assert modified[|source|] == '+';
      assert '+' in modified;
      if IsUnresolvedReason(modified) { ReasonsArePlain(modified); }
    }
  }

  // ---------------------------------------------------------------------
  // Resolvers and packages
  // ---------------------------------------------------------------------

  datatype Explanation = Explanation(handled: bool, reason: string, latest: bool)

  /** A registry resolver as its callers see it: the same answer for a purl
      whether asked alone or in a batch. */
  datatype Resolver = Resolver(name: string, batch: bool, answer: string -> string, explain: Option<string -> Explanation>)

  datatype Package = Package(license: string, source: string)

  predicate IsUnknownLicense(lic: string) {
    lic == "" || lic == "NOASSERTION" || lic == "NONE"
  }

  function PurlAt(purls: seq<string>, i: nat): string {
    if i < |purls| then purls[i] else ""
  }

  function SourceName(r: Resolver, purl: string): string {
    if r.explain.Some? && r.explain.value(purl).latest then WithModifier(r.name, ModifierLatest) else r.name
  }

  /** Offers one package to one resolver. */
  function Offer(r: Resolver, purl: string, p: Package): Package {
    if IsUnknownLicense(p.license) && purl != "" && r.answer(purl) != "" then Package(r.answer(purl), SourceName(r, purl)) else p
  }

  /** Offers one package to each resolver in order. */
  function Chain(rs: seq<Resolver>, purl: string, p: Package): Package {
    if rs == [] then p
    else Offer(rs[|rs| - 1], purl, Chain(rs[..|rs| - 1], purl, p))
  }

  /** Chain stops at the first resolver that answers with more than a placeholder. */
  lemma {:induction false} ChainFirstAnswer(rs: seq<Resolver>, purl: string, p: Package, k: nat)
    requires IsUnknownLicense(p.license) && purl != "" && k < |rs| && !IsUnknownLicense(rs[k].answer(purl))
    requires forall i :: 0 <= i < k ==> IsUnknownLicense(rs[i].answer(purl))
    ensures Chain(rs, purl, p) == Package(rs[k].answer(purl), SourceName(rs[k], purl))
  {
    var n := |rs| - 1;
    if k < n {
      ChainFirstAnswer(rs[..n], purl, p, k);
    } else {
      ChainNoAnswer(rs[..n], purl, p);
    }
  }

  lemma {:induction false} ChainNoAnswer(rs: seq<Resolver>, purl: string, p: Package)
    requires IsUnknownLicense(p.license)
    requires forall i :: 0 <= i < |rs| ==> IsUnknownLicense(rs[i].answer(purl))
    ensures IsUnknownLicense(Chain(rs, purl, p).license)
  {
    if rs != [] { ChainNoAnswer(rs[..|rs| - 1], purl, p); }
  }

  lemma {:induction false} ChainKeeps(rs: seq<Resolver>, purl: string, p: Package)
    requires !IsUnknownLicense(p.license) || purl == ""
    ensures Chain(rs, purl, p) == p
  {
    if rs != [] { ChainKeeps(rs[..|rs| - 1], purl, p); }
  }

  /** Package i of the parallel arrays. A missing sources array is empty. */
  function PackageAt(licenses: seq<string>, sources: seq<string>, i: nat): Package
    requires i < |licenses| == |sources|
  {
    Package(licenses[i], sources[i])
  }

  method RecordSource(sources: array<string>, i: nat, r: Resolver, purl: string)
    modifies sources
    ensures i < sources.Length ==> sources[..] == old(sources[..])[i := SourceName(r, purl)]
    ensures i >= sources.Length ==> sources[..] == old(sources[..])
  {
    if i >= sources.Length { return; }
    var src := r.name;
    if r.explain.Some? {
      var e := r.explain.value(purl);
      if e.latest { src := WithModifier(src, ModifierLatest); }
    }
    sources[i] := src;
  }

  /** Package i has been offered to the resolver; those from n on have not. */
  ghost predicate Offered(r: Resolver, purls: seq<string>, before: seq<Package>, licenses: seq<string>, sources: seq<string>, n: nat)
    requires n <= |before| == |licenses| == |sources|
  {
    forall k :: 0 <= k < |before| ==>
      PackageAt(licenses, sources, k) == if k < n then Offer(r, PurlAt(purls, k), before[k]) else before[k]
  }

  ghost function Zip(licenses: seq<string>, sources: seq<string>): (r: seq<Package>)
    requires |licenses| == |sources|
    ensures |r| == |licenses|
    ensures forall i :: 0 <= i < |r| ==> r[i] == Package(licenses[i], sources[i])
  {
    seq(|licenses|, i requires 0 <= i < |licenses| => Package(licenses[i], sources[i]))
  }

  /** The purls a batch resolver is asked for. */
  method UnknownPURLs(purls: seq<string>, licenses: array<string>) returns (unknown: seq<string>)
    ensures forall i :: 0 <= i < licenses.Length && IsUnknownLicense(licenses[i]) && PurlAt(purls, i) != "" ==> purls[i] in unknown
    ensures unknown == [] ==> forall i :: 0 <= i < licenses.Length && IsUnknownLicense(licenses[i]) ==> PurlAt(purls, i) == ""
  {
    unknown := [];
    for i := 0 to licenses.Length
      invariant forall k :: 0 <= k < i && IsUnknownLicense(licenses[k]) && PurlAt(purls, k) != "" ==> purls[k] in unknown
    {
      if IsUnknownLicense(licenses[i]) && i < |purls| && purls[i] != "" { unknown := unknown + [purls[i]]; }
    }
  }

  method ApplyBatch(r: Resolver, purls: seq<string>, licenses: array<string>, sources: array<string>)
    requires licenses != sources && licenses.Length == sources.Length
    modifies licenses, sources
    ensures Offered(r, purls, old(Zip(licenses[..], sources[..])), licenses[..], sources[..], licenses.Length)
  {
    ghost var before := Zip(licenses[..], sources[..]);
    var unknown := UnknownPURLs(purls, licenses);
    if |unknown| == 0 { return; }
    var resolved := map p | p in unknown :: r.answer(p);
    for i := 0 to licenses.Length
      invariant Offered(r, purls, before, licenses[..], sources[..], i)
    {
      assert PackageAt(licenses[..], sources[..], i) == before[i];
      if IsUnknownLicense(licenses[i]) && i < |purls| && purls[i] != "" {
        var spdx := if purls[i] in resolved then resolved[purls[i]] else "";
        if spdx != "" {
          licenses[i] := spdx;
          RecordSource(sources, i, r, purls[i]);
        }
      }
    }
  }

  method ApplySingle(r: Resolver, purls: seq<string>, licenses: array<string>, sources: array<string>)
    requires licenses != sources && licenses.Length == sources.Length
    modifies licenses, sources
    ensures Offered(r, purls, old(Zip(licenses[..], sources[..])), licenses[..], sources[..], licenses.Length)
  {
    ghost var before := Zip(licenses[..], sources[..]);
    for i := 0 to licenses.Length
      invariant Offered(r, purls, before, licenses[..], sources[..], i)
    {
      assert PackageAt(licenses[..], sources[..], i) == before[i];
      if IsUnknownLicense(licenses[i]) && i < |purls| && purls[i] != "" {
        var spdx := r.answer(purls[i]);
        if spdx != "" {
          licenses[i] := spdx;
          RecordSource(sources, i, r, purls[i]);
        }
      }
    }
  }

  ghost predicate Chained(rs: seq<Resolver>, purls: seq<string>, before: seq<Package>, licenses: seq<string>, sources: seq<string>)
    requires |before| == |licenses| == |sources|
  {
    forall k :: 0 <= k < |before| ==> PackageAt(licenses, sources, k) == Chain(rs, PurlAt(purls, k), before[k])
  }

  /** Resolver after resolver over the whole arrays leaves every package as if it
      alone had gone through the chain. */
  method ApplyRegistryResolvers(rs: seq<Resolver>, purls: seq<string>, licenses: array<string>, sources: array<string>)
    requires licenses != sources && licenses.Length == sources.Length
    modifies licenses, sources
    ensures Chained(rs, purls, old(Zip(licenses[..], sources[..])), licenses[..], sources[..])
  {
    ghost var before := Zip(licenses[..], sources[..]);
    for j := 0 to |rs|
      invariant Chained(rs[..j], purls, before, licenses[..], sources[..])
    {
      assert rs[..j + 1][..j] == rs[..j];
      if rs[j].batch {
        ApplyBatch(rs[j], purls, licenses, sources);
      } else {
        ApplySingle(rs[j], purls, licenses, sources);
      }
    }
    assert rs[..|rs|] == rs;
  }

  // ---------------------------------------------------------------------
  // The whole resolution of one SBOM
  // ---------------------------------------------------------------------

  /** A lookup at GitHub; None when GitHub cannot be asked at all. */
  type GitHub = string -> Option<string>

  function Declared(lic: string): Package {
    Package(lic, if IsUnknownLicense(lic) then "" else SourceDeclared)
  }

  predicate AsksGitHub(github: Option<GitHub>, purl: string, lic: string) {
    github.Some? && IsUnknownLicense(lic) && purl != ""
  }

  function FromGitHub(github: Option<GitHub>, purl: string, p: Package): Package {
    if AsksGitHub(github, purl, p.license) && github.value(purl).Some? && github.value(purl).value != ""
    then Package(github.value(purl).value, SourceGitHub)
    else p
  }

  function Normalized(normalize: string -> string, p: Package): Package {
    if normalize(p.license) != p.license then Package(normalize(p.license), WithModifier(p.source, ModifierNormalized)) else p
  }

  function ReplaceAll(s: string, from: string, to: string): string
    requires from != ""
  {
    if |s| < |from| then s
    else if HasPrefix(s, from) then to + ReplaceAll(s[|from|..], from, to)
    else [s[0]] + ReplaceAll(s[1..], from, to)
  }

  function UntilQualifiers(purl: string): string {
    if purl == "" || purl[0] == '?' || purl[0] == '#' then "" else [purl[0]] + UntilQualifiers(purl[1..])
  }

  predicate IsFirstPartyPURL(purl: string) {
    || (HasPrefix(purl, "pkg:npm/") && HasSuffix(UntilQualifiers(purl), "@0.0.0-use.local"))
    || (HasPrefix(purl, "pkg:maven/") && HasPrefix(Decoded(purl[10..]), "${project."))
  }

  function Decoded(s: string): string {
    ReplaceAll(ReplaceAll(ReplaceAll(s, "%7B", "{"), "%7D", "}"), "%24", "$")
  }

  // ---------------------------------------------------------------------
  // The project's own packages, in the text of the purl
  // ---------------------------------------------------------------------

  /** An npm package whose version, before any qualifiers, is that of a workspace. */
  ghost predicate IsWorkspace(purl: string) {
    && "pkg:npm/" <= purl
    && exists n :: EndsAt(purl, n) && n >= 16 && purl[n - 16..n] == "@0.0.0-use.local"
  }

  /** The qualifiers or the subpath begin at n, or the purl ends there. */
  predicate EndsAt(purl: string, n: int) {
    && 0 <= n <= |purl| && (n == |purl| || purl[n] == '?' || purl[n] == '#')
    && forall k :: 0 <= k < n ==> purl[k] != '?' && purl[k] != '#'
  }

  /** A Maven module whose group begins with the project's own unexpanded property,
      with either sign of it written out or percent-encoded. */
  predicate IsModule(purl: string) {
    && "pkg:maven/" <= purl
    && ( || "${project." <= purl[10..] || "$%7Bproject." <= purl[10..]
         || "%24{project." <= purl[10..] || "%24%7Bproject." <= purl[10..])
  }

  lemma {:induction false} UntilEnds(purl: string) returns (n: nat)
    ensures EndsAt(purl, n) && UntilQualifiers(purl) == purl[..n]
  {
    if purl == "" || purl[0] == '?' || purl[0] == '#' {
      n := 0;
    } else {
      n := UntilEnds(purl[1..]);
      n := n + 1;
      assert forall k :: 0 < k < n ==> purl[k] == purl[1..][k - 1];
    }
  }

  lemma WorkspaceDecided(purl: string)
    ensures HasPrefix(purl, "pkg:npm/") && HasSuffix(UntilQualifiers(purl), "@0.0.0-use.local") <==> IsWorkspace(purl)
  {
    var n := UntilEnds(purl);
    forall m | EndsAt(purl, m) ensures m == n {}
    if n >= 16 { assert purl[..n][n - 16..] == purl[n - 16..n]; }
  }

  lemma ReplaceHead(s: string, from: string, to: string)
    requires |from| == 3 && s != [] && !(from <= s)
    ensures ReplaceAll(s, from, to) == [s[0]] + ReplaceAll(s[1..], from, to)
  {
    if |s| < 3 { assert s == [s[0]] + s[1..]; }
  }

  /** Text that the replacement neither looks for nor puts in stays in front. */
  lemma {:induction false} ReplaceKeeps(s: string, from: string, to: char, p: string)
    requires |from| == 3 && forall k :: 0 <= k < |p| ==> p[k] != from[0] && p[k] != to
    ensures p <= ReplaceAll(s, from, [to]) <==> p <= s
  {
    if p != [] && s != [] {
      if from <= s {
        assert s[0] == from[0] && ReplaceAll(s, from, [to])[0] == to;
      } else {
        ReplaceHead(s, from, [to]);
        ReplaceKeeps(s[1..], from, to, p[1..]);
        assert p == [p[0]] + p[1..] && s == [s[0]] + s[1..];
      }
    }
  }

  lemma DecodedKeeps(s: string, p: string)
    requires forall k :: 0 <= k < |p| ==> p[k] != '%' && p[k] != '{' && p[k] != '}' && p[k] != '$'
    ensures p <= Decoded(s) <==> p <= s
  {
    var a := ReplaceAll(s, "%7B", "{");
    var b := ReplaceAll(a, "%7D", "}");
    ReplaceKeeps(s, "%7B", '{', p);
    ReplaceKeeps(a, "%7D", '}', p);
    ReplaceKeeps(b, "%24", '$', p);
  }

  lemma ReplacePlain(c: char, rest: string, from: string, to: string)
    requires |from| == 3 && c != from[0]
    ensures ReplaceAll([c] + rest, from, to) == [c] + ReplaceAll(rest, from, to)
  {
    assert ([c] + rest)[1..] == rest;
    assert !(from <= [c] + rest);
    ReplaceHead([c] + rest, from, to);
  }

  lemma ReplaceCode(rest: string, from: string, to: string)
    requires |from| == 3
    ensures ReplaceAll(from + rest, from, to) == to + ReplaceAll(rest, from, to)
  {
    assert (from + rest)[3..] == rest;
  }

  /** A code that is not the one looked for is passed over. */
  lemma PassesCode(rest: string, from: string, to: string)
    requires from == "%7B" || from == "%7D"
    ensures ReplaceAll("%24" + rest, from, to) == "%24" + ReplaceAll(rest, from, to)
  {
    var s := "%24" + rest;
    assert s[1..] == ['2'] + (['4'] + rest);
    assert s[1] != from[1];
    ReplaceHead(s, from, to);
    ReplacePlain('2', ['4'] + rest, from, to);
    ReplacePlain('4', rest, from, to);
  }

  /** A character that is no percent sign stands for itself. */
  lemma DecodedPlain(c: char, rest: string)
    requires c != '%'
    ensures Decoded([c] + rest) == [c] + Decoded(rest)
  {
    var a := ReplaceAll(rest, "%7B", "{");
    ReplacePlain(c, rest, "%7B", "{");
    ReplacePlain(c, a, "%7D", "}");
    ReplacePlain(c, ReplaceAll(a, "%7D", "}"), "%24", "$");
  }

  lemma DecodedBrace(rest: string)
    ensures Decoded("%7B" + rest) == ['{'] + Decoded(rest)
  {
    var a := ReplaceAll(rest, "%7B", "{");
    ReplaceCode(rest, "%7B", "{");
    ReplacePlain('{', a, "%7D", "}");
    ReplacePlain('{', ReplaceAll(a, "%7D", "}"), "%24", "$");
  }

  lemma DecodedDollar(rest: string)
    ensures Decoded("%24" + rest) == ['$'] + Decoded(rest)
  {
    var a := ReplaceAll(rest, "%7B", "{");
    PassesCode(rest, "%7B", "{");
    PassesCode(a, "%7D", "}");
    ReplaceCode(ReplaceAll(a, "%7D", "}"), "%24", "$");
  }

  lemma PrefixAfter(a: string, p: string, s: string)
    ensures a + p <= s <==> a <= s && p <= s[|a|..]
  {
  }

  /** Any other percent sign gives neither of the two signs. */
  lemma DecodedOther(rest: string)
    requires !("7B" <= rest) && !("24" <= rest)
    ensures Decoded(['%'] + rest) != [] && Decoded(['%'] + rest)[0] != '$' && Decoded(['%'] + rest)[0] != '{'
  {
    var s, a := ['%'] + rest, ReplaceAll(rest, "%7B", "{");
    assert s[1..] == rest && (['%'] + a)[1..] == a;
    PrefixAfter("%", "7B", s);
    ReplaceHead(s, "%7B", "{");
    ReplaceKeeps(rest, "%7B", '{', "24");
    if "%7D" <= ['%'] + a {
      var tail := (['%'] + a)[3..];
      assert ['%'] + a == "%7D" + tail;
      ReplaceCode(tail, "%7D", "}");
      var b := ReplaceAll(tail, "%7D", "}");
      ReplacePlain('}', b, "%24", "$");
      assert ReplaceAll(['%'] + a, "%7D", "}") == ['}'] + b;
      assert Decoded(s) == ['}'] + ReplaceAll(b, "%24", "$");
    } else {
      ReplaceHead(['%'] + a, "%7D", "}");
      var b := ReplaceAll(a, "%7D", "}");
      ReplaceKeeps(a, "%7D", '}', "24");
      assert (['%'] + b)[1..] == b;
      PrefixAfter("%", "24", ['%'] + b);
      ReplaceHead(['%'] + b, "%24", "$");
    }
  }

  /** The decoded text begins with a dollar sign or a brace exactly when the text
      begins with it or with its code; what follows is decoded for itself. */
  lemma DecodedSign(s: string, sign: char, code: string, p: string)
    requires (sign == '$' && code == "%24") || (sign == '{' && code == "%7B")
    ensures [sign] + p <= Decoded(s) <==>
            ([sign] <= s && p <= Decoded(s[1..])) || (code <= s && p <= Decoded(s[3..]))
  {
    PrefixAfter([sign], p, Decoded(s));
    if s != [] {
      var rest := s[1..];
      assert s == [s[0]] + rest;
      if s[0] != '%' {
        DecodedPlain(s[0], rest);
        assert Decoded(s)[1..] == Decoded(rest) && code[0] == '%';
      } else if "7B" <= rest {
        assert s == "%7B" + s[3..];
        DecodedBrace(s[3..]);
        assert Decoded(s)[1..] == Decoded(s[3..]);
      } else if "24" <= rest {
        assert s == "%24" + s[3..];
        DecodedDollar(s[3..]);
        assert Decoded(s)[1..] == Decoded(s[3..]);
      } else {
        DecodedOther(rest);
      }
    }
  }

  lemma BraceDecided(s: string)
    ensures "{project." <= Decoded(s) <==> "{project." <= s || "%7Bproject." <= s
  {
    DecodedSign(s, '{', "%7B", "project.");
    assert ['{'] + "project." == "{project." && "%7B" + "project." == "%7Bproject.";
    PrefixAfter(['{'], "project.", s);
    PrefixAfter("%7B", "project.", s);
    if s != [] { DecodedKeeps(s[1..], "project."); }
    if |s| >= 3 { DecodedKeeps(s[3..], "project."); }
  }

  lemma DollarDecided(s: string)
    ensures "${project." <= Decoded(s) <==>
            "${project." <= s || "$%7Bproject." <= s || "%24{project." <= s || "%24%7Bproject." <= s
  {
    DecodedSign(s, '$', "%24", "{project.");
    assert ['$'] + "{project." == "${project." && ['$'] + "%7Bproject." == "$%7Bproject.";
    assert "%24" + "{project." == "%24{project." && "%24" + "%7Bproject." == "%24%7Bproject.";
    PrefixAfter(['$'], "{project.", s);
    PrefixAfter(['$'], "%7Bproject.", s);
    PrefixAfter("%24", "{project.", s);
    PrefixAfter("%24", "%7Bproject.", s);
    if s != [] { BraceDecided(s[1..]); }
    if |s| >= 3 { BraceDecided(s[3..]); }
  }

  /** Which purls name the project's own packages. */
  lemma FirstPartyMeans(purl: string)
    ensures IsFirstPartyPURL(purl) <==> IsWorkspace(purl) || IsModule(purl)
  {
    WorkspaceDecided(purl);
    if "pkg:maven/" <= purl { DollarDecided(purl[10..]); }
  }

  const CoveredPURLTypes: set<string> := {"npm", "nuget", "maven", "pypi", "cargo", "golang", "github", "composer"}

  function PurlType(purl: string): string {
    if !HasPrefix(purl, "pkg:") then ""
    else match Before(purl[4..], "/")
      case Some(typ) => ToLower(typ)
      case None => ToLower(purl[4..])
  }

  /** The reason the last resolver that covers the purl recorded, if any did. */
  function LastReason(rs: seq<Resolver>, purl: string): string {
    if rs == [] then ""
    else
      var r := rs[|rs| - 1];
      if r.explain.Some? && r.explain.value(purl).handled && r.explain.value(purl).reason != "" then r.explain.value(purl).reason
      else LastReason(rs[..|rs| - 1], purl)
  }

  function UnresolvedReason(rs: seq<Resolver>, purl: string, isRoot: bool): string {
    if isRoot || IsFirstPartyPURL(purl) then ReasonFirstParty
    else if purl == "" then ReasonNoPURL
    else if PurlType(purl) !in CoveredPURLTypes then ReasonUnsupported
    else if LastReason(rs, purl) == "" then ReasonUnresolved
    else LastReason(rs, purl)
  }

  function Explained(rs: seq<Resolver>, purl: string, isRoot: bool, p: Package): Package {
    if IsUnknownLicense(p.license) then p.(source := UnresolvedReason(rs, purl, isRoot)) else p
  }

  /** What the resolution steps make of one package. */
  function ResolvedPackage(github: Option<GitHub>, rs: seq<Resolver>, normalize: string -> string,
                           purl: string, isRoot: bool, lic: string): Package {
    Explained(rs, purl, isRoot, Normalized(normalize, Chain(rs, purl, FromGitHub(github, purl, Declared(lic)))))
  }

  // ---------------------------------------------------------------------
  // Why a license is missing
  // ---------------------------------------------------------------------

  /** The purl is of this type, in any letter case. */
  predicate IsOfType(purl: string, name: string) {
    && "pkg:" <= purl && |purl| >= 4 + |name|
    && (forall k :: 0 <= k < |name| ==> IsSmallOf(purl[4 + k], name[k]))
    && (|purl| == 4 + |name| || purl[4 + |name|] == '/')
  }

  predicate IsCovered(purl: string) {
    || IsOfType(purl, "npm") || IsOfType(purl, "nuget") || IsOfType(purl, "maven") || IsOfType(purl, "pypi")
    || IsOfType(purl, "cargo") || IsOfType(purl, "golang") || IsOfType(purl, "github") || IsOfType(purl, "composer")
  }

  lemma TypeDecided(purl: string, name: string)
    requires SmallLetters(name) && name != ""
    ensures PurlType(purl) == name <==> IsOfType(purl, name)
  {
    if "pkg:" <= purl {
      var rest := purl[4..];
      forall typ ensures Before(rest, "/") == Some(typ) <==> CutAt(rest, "/", typ) { BeforeCuts(rest, "/", typ); }
      var typ := if Before(rest, "/").Some? then Before(rest, "/").value else rest;
      if Before(rest, "/").None? { NoSlash(rest); } else { SlashAfter(rest, typ); }
      ReadsLower(typ, name);
      if IsOfType(purl, name) {
        forall k | 0 <= k < |name| ensures rest[k] == purl[4 + k] && rest[k] != '/' { assert IsSmallOf(purl[4 + k], name[k]); }
      }
    }
  }

  lemma SlashAfter(rest: string, typ: string)
    requires CutAt(rest, "/", typ)
    ensures |typ| < |rest| && rest[|typ|] == '/' && typ == rest[..|typ|] && forall k :: 0 <= k < |typ| ==> rest[k] != '/'
  {
    assert (typ + "/")[|typ|] == '/';
    forall k | 0 <= k < |typ| ensures rest[k] != '/' { assert !("/" <= rest[k..]); }
  }

  lemma NoSlash(rest: string)
    ensures (exists typ :: CutAt(rest, "/", typ)) || forall k :: 0 <= k < |rest| ==> rest[k] != '/'
  {
    if k :| 0 <= k < |rest| && rest[k] == '/' {
      var n := FirstSlash(rest, k);
      assert rest[..n] + "/" <= rest;
      assert CutAt(rest, "/", rest[..n]);
    }
  }

  lemma {:induction false} FirstSlash(rest: string, k: nat) returns (n: nat)
    requires k < |rest| && rest[k] == '/'
    ensures n < |rest| && rest[n] == '/' && forall m :: 0 <= m < n ==> rest[m] != '/'
    decreases k
  {
    n := k;
    if m :| 0 <= m < k && rest[m] == '/' { n := FirstSlash(rest, m); }
  }

  lemma NpmToPypiDecided(purl: string)
    ensures PurlType(purl) in {"npm", "nuget", "maven", "pypi"} <==>
            IsOfType(purl, "npm") || IsOfType(purl, "nuget") || IsOfType(purl, "maven") || IsOfType(purl, "pypi")
  {
    TypeDecided(purl, "npm");
    TypeDecided(purl, "nuget");
    TypeDecided(purl, "maven");
    TypeDecided(purl, "pypi");
  }

  lemma CargoToComposerDecided(purl: string)
    ensures PurlType(purl) in {"cargo", "golang", "github", "composer"} <==>
            IsOfType(purl, "cargo") || IsOfType(purl, "golang") || IsOfType(purl, "github") || IsOfType(purl, "composer")
  {
    TypeDecided(purl, "cargo");
    TypeDecided(purl, "golang");
    TypeDecided(purl, "github");
    TypeDecided(purl, "composer");
  }

  lemma CoverageDecided(purl: string)
    ensures PurlType(purl) in CoveredPURLTypes <==> IsCovered(purl)
  {
    NpmToPypiDecided(purl);
    CargoToComposerDecided(purl);
    assert CoveredPURLTypes == {"npm", "nuget", "maven", "pypi"} + {"cargo", "golang", "github", "composer"};
  }

  /** The resolver covers the purl and says why it knows no license. */
  predicate Explains(r: Resolver, purl: string) {
    r.explain.Some? && r.explain.value(purl).handled && r.explain.value(purl).reason != ""
  }

  ghost predicate LastToExplain(rs: seq<Resolver>, purl: string, j: int) {
    0 <= j < |rs| && Explains(rs[j], purl) && forall k :: j < k < |rs| ==> !Explains(rs[k], purl)
  }

  /** The reasons in the order they are considered; of the resolvers' reasons the
      last one counts. */
  ghost predicate IsReason(rs: seq<Resolver>, purl: string, isRoot: bool, reason: string) {
    if isRoot || IsWorkspace(purl) || IsModule(purl) then reason == "first-party"
    else if purl == "" then reason == "no-purl"
    else if !IsCovered(purl) then reason == "unsupported-ecosystem"
    else if exists j :: 0 <= j < |rs| && Explains(rs[j], purl) then
      exists j :: LastToExplain(rs, purl, j) && reason == rs[j].explain.value(purl).reason
    else reason == "unresolved"
  }

  lemma {:induction false} LastReasonMeans(rs: seq<Resolver>, purl: string)
    ensures LastReason(rs, purl) == "" <==> forall j :: 0 <= j < |rs| ==> !Explains(rs[j], purl)
    ensures LastReason(rs, purl) != "" ==>
              exists j :: LastToExplain(rs, purl, j) && LastReason(rs, purl) == rs[j].explain.value(purl).reason
  {
    if rs != [] {
      var n := |rs| - 1;
      if Explains(rs[n], purl) {
        assert LastToExplain(rs, purl, n);
      } else {
        LastReasonMeans(rs[..n], purl);
        if j :| LastToExplain(rs[..n], purl, j) && LastReason(rs[..n], purl) == rs[..n][j].explain.value(purl).reason {
          assert LastToExplain(rs, purl, j);
        }
      }
    }
  }

  lemma ReasonMeans(rs: seq<Resolver>, purl: string, isRoot: bool)
    ensures IsReason(rs, purl, isRoot, UnresolvedReason(rs, purl, isRoot))
  {
    FirstPartyMeans(purl);
    CoverageDecided(purl);
    LastReasonMeans(rs, purl);
  }

  method DeclareSources(licenses: array<string>) returns (sources: array<string>)
    ensures fresh(sources) && sources.Length == licenses.Length
    ensures forall k :: 0 <= k < licenses.Length ==> PackageAt(licenses[..], sources[..], k) == Declared(licenses[k])
  {
    sources := new string[licenses.Length](_ => "");
    for i := 0 to licenses.Length
      invariant forall k :: 0 <= k < licenses.Length ==> sources[k] == if k < i then Declared(licenses[k]).source else ""
    {
      if !IsUnknownLicense(licenses[i]) { sources[i] := SourceDeclared; }
    }
  }

  /** Stops at the first package GitHub cannot be asked about. */
  method AskGitHub(github: Option<GitHub>, purls: seq<string>, licenses: array<string>, sources: array<string>) returns (ok: bool)
    requires licenses != sources && licenses.Length == sources.Length
    modifies licenses, sources
    ensures ok <==> forall k :: 0 <= k < licenses.Length && AsksGitHub(github, PurlAt(purls, k), old(licenses[k])) ==>
                      github.value(PurlAt(purls, k)).Some?
    ensures ok ==> forall k :: 0 <= k < licenses.Length ==>
              PackageAt(licenses[..], sources[..], k) == FromGitHub(github, PurlAt(purls, k), old(PackageAt(licenses[..], sources[..], k)))
  {
    if github.None? { return true; }
    ghost var before := Zip(licenses[..], sources[..]);
    for i := 0 to licenses.Length
      invariant forall k :: 0 <= k < i && AsksGitHub(github, PurlAt(purls, k), before[k].license) ==> github.value(PurlAt(purls, k)).Some?
      invariant forall k :: 0 <= k < licenses.Length ==>
                  PackageAt(licenses[..], sources[..], k) == if k < i then FromGitHub(github, PurlAt(purls, k), before[k]) else before[k]
    {
      assert PackageAt(licenses[..], sources[..], i) == before[i];
      if IsUnknownLicense(licenses[i]) && i < |purls| && purls[i] != "" {
        var found := github.value(purls[i]);
        if found.None? { return false; }
        if found.value != "" {
          licenses[i] := found.value;
          sources[i] := SourceGitHub;
        }
      }
    }
    ok := true;
  }

  method NormalizeAll(normalize: string -> string, licenses: array<string>, sources: array<string>)
    requires licenses != sources && licenses.Length == sources.Length
    modifies licenses, sources
    ensures forall k :: 0 <= k < licenses.Length ==>
              PackageAt(licenses[..], sources[..], k) == Normalized(normalize, old(PackageAt(licenses[..], sources[..], k)))
  {
    ghost var before := Zip(licenses[..], sources[..]);
    for i := 0 to licenses.Length
      invariant forall k :: 0 <= k < licenses.Length ==>
                  PackageAt(licenses[..], sources[..], k) == if k < i then Normalized(normalize, before[k]) else before[k]
    {
      assert PackageAt(licenses[..], sources[..], i) == before[i];
      var norm := normalize(licenses[i]);
      if norm != licenses[i] {
        licenses[i] := norm;
        sources[i] := WithModifier(sources[i], ModifierNormalized);
      }
    }
  }

  method FindReason(rs: seq<Resolver>, purl: string, isRoot: bool) returns (reason: string)
    ensures reason == UnresolvedReason(rs, purl, isRoot) && IsReason(rs, purl, isRoot, reason)
  {
    ReasonMeans(rs, purl, isRoot);
    if isRoot || IsFirstPartyPURL(purl) { return ReasonFirstParty; }
    if purl == "" { return ReasonNoPURL; }
    if PurlType(purl) !in CoveredPURLTypes { return ReasonUnsupported; }
    reason := "";
    for j := 0 to |rs|
      invariant reason == LastReason(rs[..j], purl)
    {
      assert rs[..j + 1][..j] == rs[..j];
      if rs[j].explain.Some? {
        var e := rs[j].explain.value(purl);
        if e.handled && e.reason != "" { reason := e.reason; }
      }
    }
    assert rs[..|rs|] == rs;
    if reason == "" { reason := ReasonUnresolved; }
  }

  method ExplainUnresolved(rs: seq<Resolver>, purls: seq<string>, licenses: array<string>, sources: array<string>, roots: set<nat>)
    requires licenses != sources && licenses.Length == sources.Length
    modifies sources
    ensures forall k :: 0 <= k < licenses.Length ==>
              PackageAt(licenses[..], sources[..], k)
              == Explained(rs, PurlAt(purls, k), k in roots, old(PackageAt(licenses[..], sources[..], k)))
  {
    ghost var before := Zip(licenses[..], sources[..]);
    for i := 0 to licenses.Length
      invariant forall k :: 0 <= k < licenses.Length ==>
                  PackageAt(licenses[..], sources[..], k)
                  == if k < i then Explained(rs, PurlAt(purls, k), k in roots, before[k]) else before[k]
    {
      assert PackageAt(licenses[..], sources[..], i) == before[i];
      if IsUnknownLicense(licenses[i]) {
        var purl := "";
        if i < |purls| { purl := purls[i]; }
        var reason := FindReason(rs, purl, i in roots);
        sources[i] := reason;
      }
    }
  }

  /** The steps over the parallel arrays leave each package as if it had been
      resolved alone, or stop because GitHub could not be asked about one. */
  method ResolvePackageLicenses(github: Option<GitHub>, rs: seq<Resolver>, normalize: string -> string,
                                purls: seq<string>, licenses: array<string>, roots: set<nat>)
    returns (ok: bool, sources: array<string>)
    modifies licenses
    ensures sources.Length == licenses.Length
    ensures ok <==> forall k :: 0 <= k < licenses.Length && AsksGitHub(github, PurlAt(purls, k), old(licenses[k])) ==>
                      github.value(PurlAt(purls, k)).Some?
    ensures ok ==> forall k :: 0 <= k < licenses.Length ==>
              PackageAt(licenses[..], sources[..], k)
              == ResolvedPackage(github, rs, normalize, PurlAt(purls, k), k in roots, old(licenses[k]))
  {
    sources := DeclareSources(licenses);
    ghost var p0 := Zip(licenses[..], sources[..]);
    ok := AskGitHub(github, purls, licenses, sources);
    if !ok { return; }
    ghost var p1 := Zip(licenses[..], sources[..]);
    assert forall k :: 0 <= k < |p1| ==> p1[k] == FromGitHub(github, PurlAt(purls, k), p0[k]);
    ApplyRegistryResolvers(rs, purls, licenses, sources);
    ghost var p2 := Zip(licenses[..], sources[..]);
    assert forall k :: 0 <= k < |p2| ==> p2[k] == PackageAt(licenses[..], sources[..], k) == Chain(rs, PurlAt(purls, k), p1[k]);
    NormalizeAll(normalize, licenses, sources);
    ghost var p3 := Zip(licenses[..], sources[..]);
    assert forall k :: 0 <= k < |p3| ==> p3[k] == PackageAt(licenses[..], sources[..], k) == Normalized(normalize, p2[k]);
    ExplainUnresolved(rs, purls, licenses, sources, roots);
    assert forall k :: 0 <= k < |p3| ==>
        PackageAt(licenses[..], sources[..], k) == Explained(rs, PurlAt(purls, k), k in roots, p3[k]);
  }

  // ---------------------------------------------------------------------
  // What the result says
  // ---------------------------------------------------------------------

  /** Resolver names are no reasons, and the reasons resolvers give are known ones. */
  ghost predicate WellBehaved(rs: seq<Resolver>) {
    forall i :: 0 <= i < |rs| ==> !IsUnresolvedReason(rs[i].name) && ExplainsWell(rs[i])
  }

  ghost predicate ExplainsWell(r: Resolver) {
    r.explain.Some? ==> forall purl :: r.explain.value(purl).reason == "" || IsUnresolvedReason(r.explain.value(purl).reason)
  }

  lemma {:induction false} ChainSourceIsNoReason(rs: seq<Resolver>, purl: string, p: Package)
    requires WellBehaved(rs) && !IsUnresolvedReason(p.source)
    ensures !IsUnresolvedReason(Chain(rs, purl, p).source)
  {
    if rs != [] {
      ChainSourceIsNoReason(rs[..|rs| - 1], purl, p);
      ModifiedIsNoReason(rs[|rs| - 1].name, ModifierLatest);
    }
  }

  lemma {:induction false} LastReasonIsReason(rs: seq<Resolver>, purl: string)
    requires WellBehaved(rs)
    ensures LastReason(rs, purl) == "" || IsUnresolvedReason(LastReason(rs, purl))
  {
    if rs != [] {
      assert ExplainsWell(rs[|rs| - 1]);
      LastReasonIsReason(rs[..|rs| - 1], purl);
    }
  }

  /** A source is a reason exactly when the license is still unknown. */
  lemma ReasonIffUnknown(github: Option<GitHub>, rs: seq<Resolver>, normalize: string -> string, purl: string, isRoot: bool, lic: string)
    requires WellBehaved(rs)
    ensures var p := ResolvedPackage(github, rs, normalize, purl, isRoot, lic);
            IsUnresolvedReason(p.source) <==> Missing(p.license)
  {
    var p := FromGitHub(github, purl, Declared(lic));
    ChainSourceIsNoReason(rs, purl, p);
    ModifiedIsNoReason(Chain(rs, purl, p).source, ModifierNormalized);
    LastReasonIsReason(rs, purl);
  }

  /** The package before normalisation: the declared license, else GitHub's, else
      the first resolver's that is no placeholder, else still unknown. */
  lemma Precedence(github: Option<GitHub>, rs: seq<Resolver>, purl: string, lic: string)
    ensures var p := Chain(rs, purl, FromGitHub(github, purl, Declared(lic)));
            var hub := github.Some? && Missing(lic) && purl != "" && github.value(purl).Some? && !Missing(github.value(purl).value);
            && (!Missing(lic) ==> p == Package(lic, "declared"))
            && (hub ==> p == Package(github.value(purl).value, "github"))
            && (Missing(lic) && purl == "" ==> p == Package(lic, ""))
            && (Missing(lic) && purl != "" && !hub ==>
                  && (forall k :: 0 <= k < |rs| && FirstToAnswer(rs, purl, k) ==> p == Answering(rs[k], purl))
                  && ((forall k :: 0 <= k < |rs| ==> Missing(rs[k].answer(purl))) ==> Missing(p.license)))
  {
    var start := FromGitHub(github, purl, Declared(lic));
    forall x ensures Missing(x) <==> IsUnknownLicense(x) {}
    if !IsUnknownLicense(start.license) || purl == "" {
      ChainKeeps(rs, purl, start);
    } else {
      forall k | 0 <= k < |rs| && FirstToAnswer(rs, purl, k) ensures Chain(rs, purl, start) == Answering(rs[k], purl) {
        ChainFirstAnswer(rs, purl, start, k);
        LatestMeans(rs[k].name);
      }
      if forall k :: 0 <= k < |rs| ==> IsUnknownLicense(rs[k].answer(purl)) { ChainNoAnswer(rs, purl, start); }
    }
  }

  /** No license, or a placeholder for it. */
  predicate Missing(lic: string) {
    lic in ["", "NOASSERTION", "NONE"]
  }

  /** What a resolver's answer makes of the package: its source says so if the
      newest release's license was used instead. */
  ghost function Answering(r: Resolver, purl: string): Package {
    var latest := r.explain.Some? && r.explain.value(purl).latest && r.name != "" && !Modified(r.name, "latest");
    Package(r.answer(purl), if latest then r.name + "+latest" else r.name)
  }

  lemma LatestMeans(name: string)
    ensures WithModifier(name, ModifierLatest) == if name != "" && !Modified(name, "latest") then name + "+latest" else name
  {
    WithModifierMeans(name, "latest");
    assert name + "+" + "latest" == name + "+latest";
  }

  /** Normalisation after that: a changed license is marked once. */
  lemma NormalizedMeans(normalize: string -> string, p: Package)
    ensures Normalized(normalize, p).license == normalize(p.license)
    ensures Normalized(normalize, p).source ==
            if normalize(p.license) != p.license && p.source != "" && !Modified(p.source, "normalized")
            then p.source + "+normalized" else p.source
  {
    WithModifierMeans(p.source, "normalized");
    assert p.source + "+" + "normalized" == p.source + "+normalized";
  }

  predicate FirstToAnswer(rs: seq<Resolver>, purl: string, k: nat)
    requires k < |rs|
  {
    !Missing(rs[k].answer(purl)) && forall i :: 0 <= i < k ==> Missing(rs[i].answer(purl))
  }
}
