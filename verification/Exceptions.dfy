/** License exceptions (internal/license/exceptions.go): the lookup index built
    from the rules file, and what it decides. */
module Exceptions {
  import opened Text
  import opened Expression
  import opened ExpressionPrinter
  import opened Evaluation

  datatype Blanket = Blanket(id: string, license: string, status: string, comment: string)

  datatype Rule = Rule(id: string, package: string, license: string, project: string, status: string, comment: string)

  datatype File = File(blankets: seq<Blanket>, rules: seq<Rule>)

  datatype Index = Index(
    blankets: map<string, Blanket>,
    packageLicense: map<string, seq<Rule>>,
    packageAny: map<string, seq<Rule>>,
    packageRules: seq<Rule>)

  predicate StatusIsApproved(status: string) {
    ToLower(TrimSpace(status)) in {"approved", "allowlisted"}
  }

  /** The identifiers a rule's license field names. */
  function SplitLicenses(expr: string): seq<string> {
    var t := TrimSpace(expr);
    if t == "" then []
    else match Parse(Tokens(t))
      case Err(_) => [t]
      case Ok(tree) => LeafIds(tree)
  }

  predicate IsAllProjectsPhrase(scope: string) {
    var fields := Fields(ToLower(scope), "");
    2 <= |fields| <= 3 && fields[0] == "all" && fields[|fields| - 1] == "projects"
  }

  predicate MatchesProject(scope: string, project: Option<string>) {
    var s := TrimSpace(scope);
    s == "" || s == "*" || IsAllProjectsPhrase(s) || project == Some(s)
  }

  /** The key of a package and license pair: joined by a NUL. */
  function Key(package: string, license: string): string {
    package + ['\0'] + license
  }

  function Lookup<T>(m: map<string, seq<T>>, key: string): seq<T> {
    if key in m then m[key] else []
  }

  // ---------------------------------------------------------------------
  // Building the index
  // ---------------------------------------------------------------------

  predicate NamesLicense(r: Rule, lic: string) {
    StatusIsApproved(r.status) && r.package != "" && r.license != "" && lic in SplitLicenses(r.license)
  }

  predicate AnyLicense(r: Rule) {
    StatusIsApproved(r.status) && r.package != "" && r.license == ""
  }

  predicate IsPackageRule(r: Rule) {
    StatusIsApproved(r.status) && r.package != ""
  }

  predicate NamesBlanket(b: Blanket, lic: string) {
    StatusIsApproved(b.status) && lic in SplitLicenses(b.license)
  }

  /** The blanket map after these exceptions: the last one naming a license wins. */
  ghost predicate HoldsBlankets(m: map<string, Blanket>, blankets: seq<Blanket>) {
    && (forall lic :: lic in m ==>
          exists i: nat :: LastNames(blankets, i, lic) && m[lic] == blankets[i])
    && (forall b, lic :: b in blankets && NamesBlanket(b, lic) ==> lic in m)
  }

  /** One of the licenses that the rule lists makes the key. */
  ghost predicate ListedUnder(r: Rule, key: string) {
    exists lic :: NamesLicense(r, lic) && key == Key(r.package, lic)
  }

  ghost predicate HoldsByLicense(m: map<string, seq<Rule>>, rules: seq<Rule>) {
    forall key, r :: r in Lookup(m, key) <==> r in rules && ListedUnder(r, key)
  }

  ghost predicate HoldsAny(m: map<string, seq<Rule>>, rules: seq<Rule>) {
    forall key, r :: r in Lookup(m, key) <==> r in rules && AnyLicense(r) && r.package == key
  }

  ghost predicate HoldsPackageRules(kept: seq<Rule>, rules: seq<Rule>) {
    forall r :: r in kept <==> r in rules && IsPackageRule(r)
  }

  /** What the index of a file holds. */
  ghost predicate Indexes(idx: Index, file: File) {
    && HoldsBlankets(idx.blankets, file.blankets)
    && HoldsByLicense(idx.packageLicense, file.rules)
    && HoldsAny(idx.packageAny, file.rules)
    && HoldsPackageRules(idx.packageRules, file.rules)
  }

  function Add<T>(m: map<string, seq<T>>, key: string, x: T): (r: map<string, seq<T>>)
    ensures forall k :: Lookup(r, k) == if k == key then Lookup(m, key) + [x] else Lookup(m, k)
  {
    m[key := Lookup(m, key) + [x]]
  }

  method AddBlanket(m0: map<string, Blanket>, b: Blanket) returns (m: map<string, Blanket>)
    ensures forall lic :: lic in m <==> lic in m0 || lic in SplitLicenses(b.license)
    ensures forall lic :: lic in m ==> m[lic] == if lic in SplitLicenses(b.license) then b else m0[lic]
  {
    m := m0;
    var lics := SplitLicenses(b.license);
    for k := 0 to |lics|
      invariant forall lic :: lic in m <==> lic in m0 || lic in lics[..k]
      invariant forall lic :: lic in m ==> m[lic] == if lic in lics[..k] then b else m0[lic]
    {
      m := m[lics[k] := b];
    }
    assert lics[..|lics|] == lics;
  }

  /** The rule once for each license that it lists under the key. */
  ghost function CopiesOf(r: Rule, lics: seq<string>, key: string): seq<Rule> {
    if lics == [] then []
    else CopiesOf(r, lics[..|lics| - 1], key) + (if Key(r.package, lics[|lics| - 1]) == key then [r] else [])
  }

  /** The rules found under a package and license key, in file order. */
  ghost function ByKey(rules: seq<Rule>, key: string): seq<Rule> {
    if rules == [] then []
    else
      var r := rules[|rules| - 1];
      ByKey(rules[..|rules| - 1], key)
      + (if IsPackageRule(r) && r.license != "" then CopiesOf(r, SplitLicenses(r.license), key) else [])
  }

  /** The rules for any license of a package, in file order. */
  ghost function ByPackage(rules: seq<Rule>, package: string): seq<Rule> {
    if rules == [] then []
    else
      var r := rules[|rules| - 1];
      ByPackage(rules[..|rules| - 1], package) + (if AnyLicense(r) && r.package == package then [r] else [])
  }

  /** The approved rules that name a package, in file order. */
  ghost function PackageRules(rules: seq<Rule>): seq<Rule> {
    if rules == [] then []
    else PackageRules(rules[..|rules| - 1]) + (if IsPackageRule(rules[|rules| - 1]) then [rules[|rules| - 1]] else [])
  }

  ghost predicate InFileOrder(idx: Index, rules: seq<Rule>) {
    && (forall key :: Lookup(idx.packageLicense, key) == ByKey(rules, key))
    && (forall key :: Lookup(idx.packageAny, key) == ByPackage(rules, key))
    && idx.packageRules == PackageRules(rules)
  }

  lemma CopiesNext(r: Rule, lics: seq<string>, lic: string, key: string)
    ensures CopiesOf(r, lics + [lic], key) == CopiesOf(r, lics, key) + (if Key(r.package, lic) == key then [r] else [])
  {
    assert (lics + [lic])[..|lics|] == lics;
  }

  /** m is m0 with the rule added under each of these licenses. */
  ghost predicate Added(m: map<string, seq<Rule>>, m0: map<string, seq<Rule>>, r: Rule, lics: seq<string>) {
    forall key :: Lookup(m, key) == Lookup(m0, key) + CopiesOf(r, lics, key)
  }

  lemma AppendIf<T>(a: seq<T>, b: seq<T>, x: T, hit: bool)
    ensures (if hit then a + b + [x] else a + b) == a + (b + if hit then [x] else [])
  {
  }

  lemma AddedAt(m: map<string, seq<Rule>>, m0: map<string, seq<Rule>>, r: Rule, lics: seq<string>, lic: string, at: string, key: string)
    requires Lookup(m, key) == Lookup(m0, key) + CopiesOf(r, lics, key) && at == Key(r.package, lic)
    ensures Lookup(Add(m, at, r), key) == Lookup(m0, key) + CopiesOf(r, lics + [lic], key)
  {
    CopiesNext(r, lics, lic, key);
    AppendIf(Lookup(m0, key), CopiesOf(r, lics, key), r, key == at);
  }

  lemma AddedNext(m: map<string, seq<Rule>>, m0: map<string, seq<Rule>>, r: Rule, lics: seq<string>, lic: string)
    requires Added(m, m0, r, lics)
    ensures Added(Add(m, Key(r.package, lic), r), m0, r, lics + [lic])
  {
    forall key ensures Lookup(Add(m, Key(r.package, lic), r), key) == Lookup(m0, key) + CopiesOf(r, lics + [lic], key) {
      AddedAt(m, m0, r, lics, lic, Key(r.package, lic), key);
    }
  }

  method AddRule(m0: map<string, seq<Rule>>, r: Rule) returns (m: map<string, seq<Rule>>)
    ensures Added(m, m0, r, SplitLicenses(r.license))
  {
    m := m0;
    var lics := SplitLicenses(r.license);
    for k := 0 to |lics|
      invariant Added(m, m0, r, lics[..k])
    {
      assert lics[..k + 1] == lics[..k] + [lics[k]];
      AddedNext(m, m0, r, lics[..k], lics[k]);
      m := Add(m, Key(r.package, lics[k]), r);
    }
    assert lics[..|lics|] == lics;
  }

  lemma {:induction false} CopiesMembers(r: Rule, lics: seq<string>, key: string, x: Rule)
    ensures x in CopiesOf(r, lics, key) <==> x == r && exists lic :: lic in lics && key == Key(r.package, lic)
  {
    if lics != [] {
      var n := |lics| - 1;
      assert lics == lics[..n] + [lics[n]];
      CopiesMembers(r, lics[..n], key, x);
    }
  }

  lemma {:induction false} ByKeyMembers(rules: seq<Rule>, key: string, x: Rule)
    ensures x in ByKey(rules, key) <==> x in rules && ListedUnder(x, key)
  {
    if rules != [] {
      var n := |rules| - 1;
      assert rules == rules[..n] + [rules[n]];
      ByKeyMembers(rules[..n], key, x);
      LastByKey(rules[n], key, x);
    }
  }

  lemma LastByKey(r: Rule, key: string, x: Rule)
    ensures x in (if IsPackageRule(r) && r.license != "" then CopiesOf(r, SplitLicenses(r.license), key) else []) <==>
            x == r && ListedUnder(x, key)
  {
    CopiesMembers(r, SplitLicenses(r.license), key, x);
    if x == r && IsPackageRule(r) && r.license != "" {
      forall lic ensures NamesLicense(x, lic) <==> lic in SplitLicenses(r.license) {}
    }
  }

  lemma {:induction false} ByPackageMembers(rules: seq<Rule>, package: string, x: Rule)
    ensures x in ByPackage(rules, package) <==> x in rules && AnyLicense(x) && x.package == package
  {
    if rules != [] {
      var n := |rules| - 1;
      assert rules == rules[..n] + [rules[n]];
      ByPackageMembers(rules[..n], package, x);
    }
  }

  lemma {:induction false} PackageRuleMembers(rules: seq<Rule>, x: Rule)
    ensures x in PackageRules(rules) <==> x in rules && IsPackageRule(x)
  {
    if rules != [] {
      var n := |rules| - 1;
      assert rules == rules[..n] + [rules[n]];
      PackageRuleMembers(rules[..n], x);
    }
  }

  lemma ByKeyHolds(m: map<string, seq<Rule>>, rules: seq<Rule>)
    requires forall key :: Lookup(m, key) == ByKey(rules, key)
    ensures HoldsByLicense(m, rules)
  {
    forall key, r ensures r in Lookup(m, key) <==> r in rules && ListedUnder(r, key) {
      ByKeyMembers(rules, key, r);
    }
  }

  lemma ByPackageHolds(m: map<string, seq<Rule>>, rules: seq<Rule>)
    requires forall key :: Lookup(m, key) == ByPackage(rules, key)
    ensures HoldsAny(m, rules)
  {
    forall key, r ensures r in Lookup(m, key) <==> r in rules && AnyLicense(r) && r.package == key {
      ByPackageMembers(rules, key, r);
    }
  }

  /** Rules kept in file order are kept. */
  lemma OrderHolds(idx: Index, rules: seq<Rule>)
    requires InFileOrder(idx, rules)
    ensures HoldsByLicense(idx.packageLicense, rules) && HoldsAny(idx.packageAny, rules) && HoldsPackageRules(idx.packageRules, rules)
  {
    ByKeyHolds(idx.packageLicense, rules);
    ByPackageHolds(idx.packageAny, rules);
    forall r ensures r in idx.packageRules <==> r in rules && IsPackageRule(r) { PackageRuleMembers(rules, r); }
  }

  ghost predicate LastNames(blankets: seq<Blanket>, i: nat, lic: string) {
    i < |blankets| && NamesBlanket(blankets[i], lic) && forall j :: i < j < |blankets| ==> !NamesBlanket(blankets[j], lic)
  }

  lemma LastNamesNext(before: seq<Blanket>, b: Blanket, lic: string)
    ensures NamesBlanket(b, lic) ==> LastNames(before + [b], |before|, lic)
    ensures !NamesBlanket(b, lic) ==> forall i: nat :: LastNames(before, i, lic) ==> LastNames(before + [b], i, lic)
  {
  }

  lemma BlanketsNext(m0: map<string, Blanket>, m: map<string, Blanket>, before: seq<Blanket>, b: Blanket)
    requires HoldsBlankets(m0, before)
    requires forall lic :: lic in m <==> lic in m0 || NamesBlanket(b, lic)
    requires forall lic :: lic in m ==> m[lic] == if NamesBlanket(b, lic) then b else m0[lic]
    ensures HoldsBlankets(m, before + [b])
  {
    var after := before + [b];
    forall lic | lic in m ensures exists i: nat :: LastNames(after, i, lic) && m[lic] == after[i] {
      LastNamesNext(before, b, lic);
      if NamesBlanket(b, lic) {
        assert after[|before|] == b;
      } else {
        var i: nat :| LastNames(before, i, lic) && m0[lic] == before[i];
        assert after[i] == before[i];
      }
    }
  }

  method IndexBlankets(blankets: seq<Blanket>) returns (m: map<string, Blanket>)
    ensures HoldsBlankets(m, blankets)
  {
    m := map[];
    for i := 0 to |blankets|
      invariant HoldsBlankets(m, blankets[..i])
    {
      ghost var m0 := m;
      if StatusIsApproved(blankets[i].status) {
        m := AddBlanket(m, blankets[i]);
      }
      BlanketsNext(m0, m, blankets[..i], blankets[i]);
      assert blankets[..i + 1] == blankets[..i] + [blankets[i]];
    }
    assert blankets[..|blankets|] == blankets;
  }

  lemma OrderNext(before: seq<Rule>, r: Rule, key: string)
    ensures ByKey(before + [r], key) == ByKey(before, key)
            + (if IsPackageRule(r) && r.license != "" then CopiesOf(r, SplitLicenses(r.license), key) else [])
    ensures ByPackage(before + [r], key) == ByPackage(before, key) + (if AnyLicense(r) && r.package == key then [r] else [])
    ensures PackageRules(before + [r]) == PackageRules(before) + (if IsPackageRule(r) then [r] else [])
  {
    assert (before + [r])[..|before|] == before;
  }

  /** What one rule does to the index keeps it in file order. */
  lemma IndexNext(idx0: Index, idx: Index, before: seq<Rule>, r: Rule)
    requires InFileOrder(idx0, before)
    requires if IsPackageRule(r) && r.license != "" then Added(idx.packageLicense, idx0.packageLicense, r, SplitLicenses(r.license))
             else idx.packageLicense == idx0.packageLicense
    requires idx.packageAny == if AnyLicense(r) then Add(idx0.packageAny, r.package, r) else idx0.packageAny
    requires idx.packageRules == idx0.packageRules + if IsPackageRule(r) then [r] else []
    ensures InFileOrder(idx, before + [r])
  {
    forall key ensures Lookup(idx.packageLicense, key) == ByKey(before + [r], key) {
      OrderNext(before, r, key);
      assert Lookup(idx0.packageLicense, key) == ByKey(before, key) == ByKey(before, key) + [];
    }
    forall key ensures Lookup(idx.packageAny, key) == ByPackage(before + [r], key) {
      OrderNext(before, r, key);
      assert Lookup(idx0.packageAny, key) == ByPackage(before, key) == ByPackage(before, key) + [];
    }
    OrderNext(before, r, "");
  }

  /** One more rule of the file. */
  method IndexRule(idx0: Index, r: Rule, ghost before: seq<Rule>) returns (idx: Index)
    requires InFileOrder(idx0, before)
    ensures idx.blankets == idx0.blankets && InFileOrder(idx, before + [r])
  {
    idx := idx0;
    if StatusIsApproved(r.status) {
      if r.license != "" && r.package != "" {
        var m := AddRule(idx.packageLicense, r);
        idx := idx.(packageLicense := m);
      } else if r.package != "" {
        idx := idx.(packageAny := Add(idx.packageAny, r.package, r));
      }
      if r.package != "" {
        idx := idx.(packageRules := idx.packageRules + [r]);
      }
    }
    IndexNext(idx0, idx, before, r);
  }

  method BuildIndex(file: File) returns (idx: Index)
    ensures Indexes(idx, file) && InFileOrder(idx, file.rules)
  {
    var blankets := IndexBlankets(file.blankets);
    idx := Index(blankets, map[], map[], []);
    var rules := file.rules;
    assert forall key :: Lookup<Rule>(map[], key) == [];
    for i := 0 to |rules|
      invariant idx.blankets == blankets && InFileOrder(idx, rules[..i])
    {
      assert rules[..i + 1] == rules[..i] + [rules[i]];
      idx := IndexRule(idx, rules[i], rules[..i]);
    }
    assert rules[..|rules|] == rules;
    OrderHolds(idx, rules);
  }

  // ---------------------------------------------------------------------
  // Deciding a package and license pair
  // ---------------------------------------------------------------------

  /** The position of the last '-' before n, or -1. */
  function LastDash(s: string, n: nat): (r: int)
    requires n <= |s|
    ensures -1 <= r < n
    ensures r >= 0 ==> s[r] == '-'
    ensures forall k :: r < k < n ==> s[k] != '-'
  {
    if n == 0 then -1 else if s[n - 1] == '-' then n - 1 else LastDash(s, n - 1)
  }

  /** Walks back over the dashes of lic from end to the longest covered base. */
  function CoveredBase(blankets: map<string, Blanket>, lic: string, end: int): (r: Option<nat>)
    requires end < |lic|
    requires end >= 0 ==> lic[end] == '-'
    ensures r.Some? ==> 0 < r.value < |lic| && lic[r.value] == '-' && lic[..r.value] in blankets
    ensures forall k :: (if r.Some? then r.value else 0) < k <= end && lic[k] == '-' ==> lic[..k] !in blankets
    decreases end
  {
    if end <= 0 then None
    else if lic[..end] in blankets then Some(end)
    else CoveredBase(blankets, lic, LastDash(lic, end))
  }

  function BlanketReason(b: Blanket): string {
    "Blanket exception: " + b.id + " – " + b.comment
  }

  function BlanketViaReason(b: Blanket, base: string): string {
    "Blanket exception: " + b.id + " (via " + base + ") – " + b.comment
  }

  function RuleReason(r: Rule): string {
    "Exception: " + r.id + " – " + r.comment
  }

  /** Rules found by an exact key. */
  function FirstMatching(rules: seq<Rule>, project: Option<string>): Option<string> {
    if rules == [] then None
    else if MatchesProject(rules[0].project, project) then Some(RuleReason(rules[0]))
    else FirstMatching(rules[1..], project)
  }

  predicate SuffixMatches(r: Rule, name: string, project: Option<string>) {
    HasSuffix(name, "/" + r.package) && MatchesProject(r.project, project)
  }

  /** Rules for a path suffix of the name that list the license. */
  function FirstSuffix(rules: seq<Rule>, name: string, lic: string, project: Option<string>): Option<string> {
    if rules == [] then None
    else if SuffixMatches(rules[0], name, project) && lic in SplitLicenses(rules[0].license) then Some(RuleReason(rules[0]))
    else FirstSuffix(rules[1..], name, lic, project)
  }

  /** Rules for a path suffix of the name without a license. */
  function FirstSuffixAny(rules: seq<Rule>, name: string, project: Option<string>): Option<string> {
    if rules == [] then None
    else if rules[0].license == "" && SuffixMatches(rules[0], name, project) then Some(RuleReason(rules[0]))
    else FirstSuffixAny(rules[1..], name, project)
  }

  function BlanketDecision(idx: Index, lic: string): Option<string> {
    if lic in idx.blankets then Some(BlanketReason(idx.blankets[lic]))
    else match CoveredBase(idx.blankets, lic, LastDash(lic, |lic|))
      case Some(end) => Some(BlanketViaReason(idx.blankets[lic[..end]], lic[..end]))
      case None => None
  }

  /** The reason a pair is exempt, if it is. */
  function Decision(idx: Index, name: string, lic: string, project: Option<string>): Option<string> {
    var byKey := FirstMatching(Lookup(idx.packageLicense, Key(name, lic)), project);
    var bySuffix := FirstSuffix(idx.packageRules, name, lic, project);
    var byPackage := FirstMatching(Lookup(idx.packageAny, name), project);
    if BlanketDecision(idx, lic).Some? then BlanketDecision(idx, lic)
    else if byKey.Some? then byKey
    else if bySuffix.Some? then bySuffix
    else if byPackage.Some? then byPackage
    else FirstSuffixAny(idx.packageRules, name, project)
  }

  method BlanketExempt(idx: Index, lic: string) returns (r: Option<string>)
    ensures r == BlanketDecision(idx, lic)
  {
    if lic in idx.blankets { return Some(BlanketReason(idx.blankets[lic])); }
    var end := LastDash(lic, |lic|);
    while end > 0
      invariant end < |lic| && (end >= 0 ==> lic[end] == '-')
      invariant CoveredBase(idx.blankets, lic, LastDash(lic, |lic|)) == CoveredBase(idx.blankets, lic, end)
    {
      if lic[..end] in idx.blankets {
        return Some(BlanketViaReason(idx.blankets[lic[..end]], lic[..end]));
      }
      end := LastDash(lic, end);
    }
    r := None;
  }

  method FindMatching(rules: seq<Rule>, project: Option<string>) returns (r: Option<string>)
    ensures r == FirstMatching(rules, project)
  {
    for i := 0 to |rules|
      invariant FirstMatching(rules, project) == FirstMatching(rules[i..], project)
    {
      assert rules[i..] == [rules[i]] + rules[i + 1..];
      if MatchesProject(rules[i].project, project) { return Some(RuleReason(rules[i])); }
    }
    r := None;
  }

  method FindSuffix(rules: seq<Rule>, name: string, lic: string, project: Option<string>) returns (r: Option<string>)
    ensures r == FirstSuffix(rules, name, lic, project)
  {
    for i := 0 to |rules|
      invariant FirstSuffix(rules, name, lic, project) == FirstSuffix(rules[i..], name, lic, project)
    {
      assert rules[i..] == [rules[i]] + rules[i + 1..];
      if !SuffixMatches(rules[i], name, project) { continue; }
      if lic in SplitLicenses(rules[i].license) { return Some(RuleReason(rules[i])); }
    }
    r := None;
  }

  method FindSuffixAny(rules: seq<Rule>, name: string, project: Option<string>) returns (r: Option<string>)
    ensures r == FirstSuffixAny(rules, name, project)
  {
    for i := 0 to |rules|
      invariant FirstSuffixAny(rules, name, project) == FirstSuffixAny(rules[i..], name, project)
    {
      assert rules[i..] == [rules[i]] + rules[i + 1..];
      if rules[i].license == "" && SuffixMatches(rules[i], name, project) { return Some(RuleReason(rules[i])); }
    }
    r := None;
  }

  method IsExempt(index: Option<Index>, name: string, lic: string, project: Option<string>) returns (r: Option<string>)
    ensures r == if index.None? then None else Decision(index.value, name, lic, project)
  {
    if index.None? { return None; }
    var idx := index.value;
    r := BlanketExempt(idx, lic);
    if r.Some? { return; }
    r := FindMatching(Lookup(idx.packageLicense, Key(name, lic)), project);
    if r.Some? { return; }
    r := FindSuffix(idx.packageRules, name, lic, project);
    if r.Some? { return; }
    r := FindMatching(Lookup(idx.packageAny, name), project);
    if r.Some? { return; }
    r := FindSuffixAny(idx.packageRules, name, project);
  }

  // ---------------------------------------------------------------------
  // What the fields of a rule mean
  // ---------------------------------------------------------------------

  /** One of two words grants, in any letter case and with white space around it. */
  ghost predicate Approved(status: string) {
    exists t :: TrimsTo(status, t) && GrantingWord(t)
  }

  predicate GrantingWord(t: string) {
    ReadsSmall(t, "approved") || ReadsSmall(t, "allowlisted")
  }

  /** "all projects", with at most one word in between. */
  ghost predicate AllProjects(scope: string) {
    exists words :: Spaces(scope, words) && IsPhrase(words)
  }

  predicate IsPhrase(words: seq<string>) {
    2 <= |words| <= 3 && ReadsSmall(words[0], "all") && ReadsSmall(words[|words| - 1], "projects")
  }

  /** The scope is empty, a star, all projects, or the name of this project. */
  ghost predicate CoversProject(scope: string, project: Option<string>) {
    exists s :: TrimsTo(scope, s) && (s == "" || s == "*" || AllProjects(s) || project == Some(s))
  }

  /** The license field names this license: as one of its expression's, or as the
      whole text when that is no expression. */
  ghost predicate ListsLicense(expr: string, lic: string) {
    exists t :: TrimsTo(expr, t) && t != ""
      && match Parse(Tokens(t))
         case Ok(tree) => lic in LeafIds(tree)
         case Err(_) => lic == t
  }

  /** The package is the name or all of it behind one of its slashes. */
  predicate IsNameOrTail(package: string, name: string) {
    || package == name
    || (|package| < |name| && name[|name| - |package| - 1] == '/' && name[|name| - |package|..] == package)
  }

  lemma GrantingWordMeans(t: string)
    ensures GrantingWord(t) <==> ToLower(t) in {"approved", "allowlisted"}
  {
    ReadsLower(t, "approved");
    ReadsLower(t, "allowlisted");
  }

  lemma ApprovedMeans(status: string)
    ensures StatusIsApproved(status) <==> Approved(status)
  {
    forall t ensures TrimSpace(status) == t <==> TrimsTo(status, t) { TrimSpaceTrims(status, t); }
    assert TrimsTo(status, TrimSpace(status));
    GrantingWordMeans(TrimSpace(status));
  }

  lemma {:induction false} FieldsLower(s: string, word: string)
    ensures var low, words := Fields(ToLower(s), ToLower(word)), Fields(s, word);
            |low| == |words| && forall i :: 0 <= i < |words| ==> low[i] == ToLower(words[i])
    decreases s
  {
    if s != [] {
      var c, rest := s[0], s[1..];
      assert ToLower(s)[0] == LowerChar(c) && ToLower(s)[1..] == ToLower(rest);
      assert IsSpace(LowerChar(c)) == IsSpace(c);
      if IsSpace(c) {
        FieldsLower(rest, []);
        assert ToLower([]) == [];
      } else {
        FieldsLower(rest, word + [c]);
        assert ToLower(word + [c]) == ToLower(word) + [LowerChar(c)];
      }
    }
  }

  lemma PhraseMeans(words: seq<string>, low: seq<string>)
    requires |low| == |words| && forall i :: 0 <= i < |words| ==> low[i] == ToLower(words[i])
    ensures IsPhrase(words) <==> 2 <= |low| <= 3 && low[0] == "all" && low[|low| - 1] == "projects"
  {
    if |words| >= 2 {
      ReadsLower(words[0], "all");
      ReadsLower(words[|words| - 1], "projects");
    }
  }

  lemma AllProjectsMeans(scope: string)
    ensures IsAllProjectsPhrase(scope) <==> AllProjects(scope)
  {
    var words := Fields(scope, []);
    FieldsLower(scope, []);
    assert ToLower([]) == [];
    PhraseMeans(words, Fields(ToLower(scope), []));
    forall some ensures words == some <==> Spaces(scope, some) { FieldsSpaces(scope, some); }
    assert Spaces(scope, words);
  }

  lemma ProjectMeans(scope: string, project: Option<string>)
    ensures MatchesProject(scope, project) <==> CoversProject(scope, project)
  {
    forall t ensures TrimSpace(scope) == t <==> TrimsTo(scope, t) { TrimSpaceTrims(scope, t); }
    var s := TrimSpace(scope);
    assert TrimsTo(scope, s);
    AllProjectsMeans(s);
  }

  lemma LicensesMean(expr: string, lic: string)
    ensures lic in SplitLicenses(expr) <==> ListsLicense(expr, lic)
  {
    forall t ensures TrimSpace(expr) == t <==> TrimsTo(expr, t) { TrimSpaceTrims(expr, t); }
    assert TrimsTo(expr, TrimSpace(expr));
  }

  lemma TailMeans(package: string, name: string)
    ensures NamesPackage(Rule("", package, "", "", "", ""), name) <==> IsNameOrTail(package, name)
  {
    var tail := "/" + package;
    if |tail| <= |name| {
      var end := name[|name| - |tail|..];
      assert end == [name[|name| - |package| - 1]] + name[|name| - |package|..];
      assert tail[0] == '/' && tail[1..] == package && end[1..] == name[|name| - |package|..];
    }
  }

  // ---------------------------------------------------------------------
  // The linear scan the index must agree with
  // ---------------------------------------------------------------------

  /** An approved blanket exception names the license or a base of it. */
  ghost predicate BlanketCovers(file: File, lic: string) {
    exists b, base :: b in file.blankets && Approved(b.status) && ListsLicense(b.license, base) && IsBase(base, lic)
  }

  /** An approved rule for the package, the project and the license. */
  ghost predicate RuleCovers(r: Rule, name: string, lic: string, project: Option<string>) {
    && Approved(r.status) && r.package != "" && IsNameOrTail(r.package, name) && CoversProject(r.project, project)
    && (r.license == "" || ListsLicense(r.license, lic))
  }

  ghost predicate Covered(file: File, name: string, lic: string, project: Option<string>) {
    BlanketCovers(file, lic) || exists r :: r in file.rules && RuleCovers(r, name, lic, project)
  }

  /** An approved rule for another pair, with the same text when the names are joined
      by a NUL. */
  ghost predicate Collides(file: File, name: string, lic: string, project: Option<string>) {
    exists r, l ::
      && r in file.rules && Approved(r.status) && r.package != "" && ListsLicense(r.license, l)
      && CoversProject(r.project, project)
      && (r.package, l) != (name, lic) && r.package + ['\0'] + l == name + ['\0'] + lic
  }

  /** base is the license itself or all of it up to one of its dashes. */
  predicate IsBase(base: string, lic: string) {
    base == lic || (0 < |base| < |lic| && base <= lic && lic[|base|] == '-')
  }

  ghost predicate BlanketMatches(file: File, lic: string) {
    exists b, base :: b in file.blankets && NamesBlanket(b, base) && IsBase(base, lic)
  }

  /** The package is the name or a whole path suffix of it. */
  predicate NamesPackage(r: Rule, name: string) {
    r.package == name || HasSuffix(name, "/" + r.package)
  }

  predicate RuleMatches(r: Rule, name: string, lic: string, project: Option<string>) {
    && IsPackageRule(r) && NamesPackage(r, name) && MatchesProject(r.project, project)
    && (r.license == "" || lic in SplitLicenses(r.license))
  }

  ghost predicate Matched(file: File, name: string, lic: string, project: Option<string>) {
    BlanketMatches(file, lic) || SomeRuleMatches(file, name, lic, project)
  }

  /** A rule for another pair whose NUL-joined key happens to be the same. */
  ghost predicate KeysCollide(file: File, name: string, lic: string, project: Option<string>) {
    exists r, l :: r in file.rules && NamesLicense(r, l) && MatchesProject(r.project, project)
                   && (r.package, l) != (name, lic) && Key(r.package, l) == Key(name, lic)
  }

  lemma {:induction false} MatchingIff(rules: seq<Rule>, project: Option<string>)
    ensures FirstMatching(rules, project).Some? <==> exists r :: r in rules && MatchesProject(r.project, project)
  {
    if rules != [] {
      MatchingIff(rules[1..], project);
      assert forall r :: r in rules <==> r == rules[0] || r in rules[1..];
    }
  }

  lemma {:induction false} SuffixIff(rules: seq<Rule>, name: string, lic: string, project: Option<string>)
    ensures FirstSuffix(rules, name, lic, project).Some? <==>
            exists r :: r in rules && SuffixMatches(r, name, project) && lic in SplitLicenses(r.license)
  {
    if rules != [] {
      SuffixIff(rules[1..], name, lic, project);
      assert forall r :: r in rules <==> r == rules[0] || r in rules[1..];
    }
  }

  lemma {:induction false} SuffixAnyIff(rules: seq<Rule>, name: string, project: Option<string>)
    ensures FirstSuffixAny(rules, name, project).Some? <==>
            exists r :: r in rules && r.license == "" && SuffixMatches(r, name, project)
  {
    if rules != [] {
      SuffixAnyIff(rules[1..], name, project);
      assert forall r :: r in rules <==> r == rules[0] || r in rules[1..];
    }
  }

  lemma BaseIsFound(m: map<string, Blanket>, lic: string, base: string)
    requires base in m && IsBase(base, lic) && lic !in m
    ensures CoveredBase(m, lic, LastDash(lic, |lic|)).Some?
    ensures |base| <= CoveredBase(m, lic, LastDash(lic, |lic|)).value
  {
    assert lic[..|base|] == base && |base| <= LastDash(lic, |lic|);
  }

  lemma NamedIsCovered(idx: Index, file: File, lic: string, base: string)
    requires HoldsBlankets(idx.blankets, file.blankets) && base in idx.blankets && IsBase(base, lic)
    ensures BlanketMatches(file, lic)
  {
    var i: nat :| LastNames(file.blankets, i, base) && idx.blankets[base] == file.blankets[i];
    assert file.blankets[i] in file.blankets;
  }

  lemma BlanketIff(idx: Index, file: File, lic: string)
    requires HoldsBlankets(idx.blankets, file.blankets)
    ensures BlanketDecision(idx, lic).Some? <==> BlanketMatches(file, lic)
  {
    if lic in idx.blankets {
      NamedIsCovered(idx, file, lic, lic);
    } else {
      var found := CoveredBase(idx.blankets, lic, LastDash(lic, |lic|));
      if found.Some? { NamedIsCovered(idx, file, lic, lic[..found.value]); }
      if BlanketMatches(file, lic) {
        var b, base :| b in file.blankets && NamesBlanket(b, base) && IsBase(base, lic);
        BaseIsFound(idx.blankets, lic, base);
      }
    }
  }

  /** The walk over dashes quotes the longest covered base. */
  lemma LongestBase(idx: Index, lic: string, base: string)
    requires lic !in idx.blankets && base in idx.blankets && IsBase(base, lic)
    ensures exists longest :: longest in idx.blankets && IsBase(longest, lic) && |base| <= |longest|
              && BlanketDecision(idx, lic) == Some("Blanket exception: " + idx.blankets[longest].id + " (via " + longest + ") – "
                                                   + idx.blankets[longest].comment)
  {
    BaseIsFound(idx.blankets, lic, base);
    var end := CoveredBase(idx.blankets, lic, LastDash(lic, |lic|)).value;
    assert IsBase(lic[..end], lic);
  }

  /** What the four lookups after the blanket ones find. */
  ghost predicate Found(idx: Index, name: string, lic: string, project: Option<string>) {
    || (exists r :: r in Lookup(idx.packageLicense, Key(name, lic)) && MatchesProject(r.project, project))
    || (exists r :: r in idx.packageRules && SuffixMatches(r, name, project) && lic in SplitLicenses(r.license))
    || (exists r :: r in Lookup(idx.packageAny, name) && MatchesProject(r.project, project))
    || (exists r :: r in idx.packageRules && r.license == "" && SuffixMatches(r, name, project))
  }

  lemma DecisionIsFound(idx: Index, name: string, lic: string, project: Option<string>)
    requires BlanketDecision(idx, lic).None?
    ensures Decision(idx, name, lic, project).Some? <==> Found(idx, name, lic, project)
  {
    MatchingIff(Lookup(idx.packageLicense, Key(name, lic)), project);
    SuffixIff(idx.packageRules, name, lic, project);
    MatchingIff(Lookup(idx.packageAny, name), project);
    SuffixAnyIff(idx.packageRules, name, project);
  }

  ghost predicate SomeRuleMatches(file: File, name: string, lic: string, project: Option<string>) {
    exists r :: r in file.rules && RuleMatches(r, name, lic, project)
  }

  lemma CoveredIsFound(idx: Index, file: File, r: Rule, name: string, lic: string, project: Option<string>)
    requires Indexes(idx, file)
    requires r in file.rules && RuleMatches(r, name, lic, project)
    ensures Found(idx, name, lic, project)
  {
    if r.package == name {
      if r.license == "" {
        assert r in Lookup(idx.packageAny, name);
      } else {
        assert NamesLicense(r, lic) && ListedUnder(r, Key(name, lic));
        assert r in Lookup(idx.packageLicense, Key(name, lic));
      }
    } else {
      assert r in idx.packageRules && SuffixMatches(r, name, project);
    }
  }

  lemma KeyedIsCovered(file: File, r: Rule, name: string, lic: string, project: Option<string>, key: string)
    requires r in file.rules && MatchesProject(r.project, project) && key == Key(name, lic) && ListedUnder(r, key)
    ensures SomeRuleMatches(file, name, lic, project) || KeysCollide(file, name, lic, project)
  {
    var l :| NamesLicense(r, l) && key == Key(r.package, l);
    if (r.package, l) == (name, lic) { assert RuleMatches(r, name, lic, project); }
  }

  lemma SuffixIsMatched(idx: Index, file: File, r: Rule, name: string, lic: string, project: Option<string>)
    requires Indexes(idx, file) && r in idx.packageRules && SuffixMatches(r, name, project)
    requires r.license == "" || lic in SplitLicenses(r.license)
    ensures r in file.rules && RuleMatches(r, name, lic, project)
  {
  }

  lemma PackageIsMatched(idx: Index, file: File, r: Rule, name: string, lic: string, project: Option<string>)
    requires Indexes(idx, file) && r in Lookup(idx.packageAny, name) && MatchesProject(r.project, project)
    ensures r in file.rules && RuleMatches(r, name, lic, project)
  {
  }

  lemma FoundIsCovered(idx: Index, file: File, name: string, lic: string, project: Option<string>)
    requires Indexes(idx, file) && Found(idx, name, lic, project)
    ensures SomeRuleMatches(file, name, lic, project) || KeysCollide(file, name, lic, project)
  {
    if r :| r in Lookup(idx.packageLicense, Key(name, lic)) && MatchesProject(r.project, project) {
      KeyedIsCovered(file, r, name, lic, project, Key(name, lic));
    } else if r :| r in idx.packageRules && SuffixMatches(r, name, project) && lic in SplitLicenses(r.license) {
      SuffixIsMatched(idx, file, r, name, lic, project);
    } else if r :| r in Lookup(idx.packageAny, name) && MatchesProject(r.project, project) {
      PackageIsMatched(idx, file, r, name, lic, project);
    } else {
      var r :| r in idx.packageRules && r.license == "" && SuffixMatches(r, name, project);
      SuffixIsMatched(idx, file, r, name, lic, project);
    }
  }

  lemma CollidingIsFound(idx: Index, file: File, name: string, lic: string, project: Option<string>)
    requires Indexes(idx, file) && KeysCollide(file, name, lic, project)
    ensures Found(idx, name, lic, project)
  {
    var r, l :| r in file.rules && NamesLicense(r, l) && MatchesProject(r.project, project)
                && (r.package, l) != (name, lic) && Key(r.package, l) == Key(name, lic);
    FoundByKey(idx, file, r, l, Key(name, lic));
  }

  lemma FoundByKey(idx: Index, file: File, r: Rule, l: string, key: string)
    requires Indexes(idx, file) && r in file.rules && NamesLicense(r, l) && key == Key(r.package, l)
    ensures r in Lookup(idx.packageLicense, key)
  {
    assert ListedUnder(r, key);
  }

  lemma RulesIff(idx: Index, file: File, name: string, lic: string, project: Option<string>)
    requires Indexes(idx, file) && BlanketDecision(idx, lic).None?
    ensures Decision(idx, name, lic, project).Some? <==>
            SomeRuleMatches(file, name, lic, project) || KeysCollide(file, name, lic, project)
  {
    DecisionIsFound(idx, name, lic, project);
    if Found(idx, name, lic, project) { FoundIsCovered(idx, file, name, lic, project); }
    if SomeRuleMatches(file, name, lic, project) {
      var r :| r in file.rules && RuleMatches(r, name, lic, project);
      CoveredIsFound(idx, file, r, name, lic, project);
    }
    if KeysCollide(file, name, lic, project) { CollidingIsFound(idx, file, name, lic, project); }
  }

  lemma IndexAgreesWithMatches(idx: Index, file: File, name: string, lic: string, project: Option<string>)
    requires Indexes(idx, file)
    ensures Decision(idx, name, lic, project).Some? <==>
            Matched(file, name, lic, project) || KeysCollide(file, name, lic, project)
  {
    BlanketIff(idx, file, lic);
    if BlanketDecision(idx, lic).None? { RulesIff(idx, file, name, lic, project); }
  }

  lemma BlanketMatchesMean(file: File, lic: string)
    ensures BlanketMatches(file, lic) <==> BlanketCovers(file, lic)
  {
    forall b, base ensures NamesBlanket(b, base) <==> Approved(b.status) && ListsLicense(b.license, base) {
      ApprovedMeans(b.status);
      LicensesMean(b.license, base);
    }
  }

  lemma RuleMatchesMean(r: Rule, name: string, lic: string, project: Option<string>)
    ensures RuleMatches(r, name, lic, project) <==> RuleCovers(r, name, lic, project)
  {
    ApprovedMeans(r.status);
    ProjectMeans(r.project, project);
    LicensesMean(r.license, lic);
    TailMeans(r.package, name);
  }

  lemma KeysCollideMeans(file: File, name: string, lic: string, project: Option<string>)
    ensures KeysCollide(file, name, lic, project) <==> Collides(file, name, lic, project)
  {
    forall r, l
      ensures NamesLicense(r, l) <==> Approved(r.status) && r.package != "" && ListsLicense(r.license, l)
    {
      ApprovedMeans(r.status);
      LicensesMean(r.license, l);
      if r.license == "" { NothingListed(l); }
    }
    forall r: Rule ensures MatchesProject(r.project, project) <==> CoversProject(r.project, project) { ProjectMeans(r.project, project); }
  }

  lemma NothingListed(lic: string)
    ensures !ListsLicense("", lic)
  {
    LicensesMean("", lic);
    assert SplitLicenses("") == [];
  }

  /** The index decides as the scan does, except for pairs whose key another
      rule's pair collides with. */
  lemma IndexAgreesWithScan(idx: Index, file: File, name: string, lic: string, project: Option<string>)
    requires Indexes(idx, file)
    ensures Decision(idx, name, lic, project).Some? <==>
            Covered(file, name, lic, project) || Collides(file, name, lic, project)
  {
    IndexAgreesWithMatches(idx, file, name, lic, project);
    BlanketMatchesMean(file, lic);
    forall r ensures RuleMatches(r, name, lic, project) <==> RuleCovers(r, name, lic, project) { RuleMatchesMean(r, name, lic, project); }
    KeysCollideMeans(file, name, lic, project);
  }

  predicate NulFree(s: string) {
    forall i :: 0 <= i < |s| ==> s[i] != '\0'
  }

  lemma KeyPrefix(p: string, l: string, q: string, m: string)
    requires Key(p, l) == Key(q, m) && |p| < |q|
    ensures q[|p|] == '\0'
  {
    assert Key(p, l)[|p|] == '\0' && Key(q, m)[|p|] == q[|p|];
  }

  lemma KeyInjective(p: string, l: string, q: string, m: string)
    requires NulFree(p) && NulFree(q) && Key(p, l) == Key(q, m)
    ensures p == q && l == m
  {
    if |p| < |q| { KeyPrefix(p, l, q, m); }
    if |q| < |p| { KeyPrefix(q, m, p, l); }
    var k := Key(p, l);
    assert k[..|p|] == p && k[..|q|] == q;
    assert k[|p| + 1..] == l && k[|q| + 1..] == m;
  }

  /** No package name with a NUL, no collision. */
  lemma NulFreeNamesAgree(idx: Index, file: File, name: string, lic: string, project: Option<string>)
    requires Indexes(idx, file)
    requires NulFree(name) && forall r :: r in file.rules ==> NulFree(r.package)
    ensures Decision(idx, name, lic, project).Some? <==> Covered(file, name, lic, project)
  {
    IndexAgreesWithScan(idx, file, name, lic, project);
    if Collides(file, name, lic, project) {
      var r, l :|
        && r in file.rules && Approved(r.status) && r.package != "" && ListsLicense(r.license, l)
        && CoversProject(r.project, project)
        && (r.package, l) != (name, lic) && r.package + ['\0'] + l == name + ['\0'] + lic;
      KeyInjective(r.package, l, name, lic);
    }
  }

  // ---------------------------------------------------------------------
  // The reason that is given
  // ---------------------------------------------------------------------

  ghost predicate Quotes(reason: Option<string>, r: Rule) {
    reason == Some("Exception: " + r.id + " – " + r.comment)
  }

  lemma {:induction false} MatchingQuotes(rules: seq<Rule>, project: Option<string>)
    requires FirstMatching(rules, project).Some?
    ensures exists r :: r in rules && MatchesProject(r.project, project) && Quotes(FirstMatching(rules, project), r)
  {
    if MatchesProject(rules[0].project, project) {
      assert Quotes(FirstMatching(rules, project), rules[0]);
    } else {
      MatchingQuotes(rules[1..], project);
    }
  }

  lemma {:induction false} SuffixQuotes(rules: seq<Rule>, name: string, lic: string, project: Option<string>)
    requires FirstSuffix(rules, name, lic, project).Some?
    ensures exists r :: r in rules && SuffixMatches(r, name, project) && lic in SplitLicenses(r.license)
              && Quotes(FirstSuffix(rules, name, lic, project), r)
  {
    if SuffixMatches(rules[0], name, project) && lic in SplitLicenses(rules[0].license) {
      assert Quotes(FirstSuffix(rules, name, lic, project), rules[0]);
    } else {
      SuffixQuotes(rules[1..], name, lic, project);
    }
  }

  lemma {:induction false} SuffixAnyQuotes(rules: seq<Rule>, name: string, project: Option<string>)
    requires FirstSuffixAny(rules, name, project).Some?
    ensures exists r :: r in rules && r.license == "" && SuffixMatches(r, name, project)
              && Quotes(FirstSuffixAny(rules, name, project), r)
  {
    if rules[0].license == "" && SuffixMatches(rules[0], name, project) {
      assert Quotes(FirstSuffixAny(rules, name, project), rules[0]);
    } else {
      SuffixAnyQuotes(rules[1..], name, project);
    }
  }

  lemma KeyedIsMatched(file: File, r: Rule, name: string, lic: string, project: Option<string>, key: string)
    requires r in file.rules && MatchesProject(r.project, project) && key == Key(name, lic) && ListedUnder(r, key)
    requires NulFree(name) && NulFree(r.package)
    ensures RuleMatches(r, name, lic, project)
  {
    var l :| NamesLicense(r, l) && key == Key(r.package, l);
    KeyInjective(r.package, l, name, lic);
  }

  lemma KeyedQuoted(idx: Index, file: File, name: string, lic: string, project: Option<string>) returns (r: Rule)
    requires Indexes(idx, file) && NulFree(name) && forall r :: r in file.rules ==> NulFree(r.package)
    requires FirstMatching(Lookup(idx.packageLicense, Key(name, lic)), project).Some?
    ensures r in file.rules && RuleMatches(r, name, lic, project)
    ensures Quotes(FirstMatching(Lookup(idx.packageLicense, Key(name, lic)), project), r)
  {
    var keyed := Lookup(idx.packageLicense, Key(name, lic));
    MatchingQuotes(keyed, project);
    r :| r in keyed && MatchesProject(r.project, project) && Quotes(FirstMatching(keyed, project), r);
    KeyedIsMatched(file, r, name, lic, project, Key(name, lic));
  }

  lemma SuffixQuoted(idx: Index, file: File, name: string, lic: string, project: Option<string>) returns (r: Rule)
    requires Indexes(idx, file) && FirstSuffix(idx.packageRules, name, lic, project).Some?
    ensures r in file.rules && RuleMatches(r, name, lic, project) && Quotes(FirstSuffix(idx.packageRules, name, lic, project), r)
  {
    SuffixQuotes(idx.packageRules, name, lic, project);
    r :| r in idx.packageRules && SuffixMatches(r, name, project) && lic in SplitLicenses(r.license)
         && Quotes(FirstSuffix(idx.packageRules, name, lic, project), r);
    SuffixIsMatched(idx, file, r, name, lic, project);
  }

  lemma PackageQuoted(idx: Index, file: File, name: string, lic: string, project: Option<string>) returns (r: Rule)
    requires Indexes(idx, file) && FirstMatching(Lookup(idx.packageAny, name), project).Some?
    ensures r in file.rules && RuleMatches(r, name, lic, project) && Quotes(FirstMatching(Lookup(idx.packageAny, name), project), r)
  {
    var any := Lookup(idx.packageAny, name);
    MatchingQuotes(any, project);
    r :| r in any && MatchesProject(r.project, project) && Quotes(FirstMatching(any, project), r);
    PackageIsMatched(idx, file, r, name, lic, project);
  }

  lemma SuffixAnyQuoted(idx: Index, file: File, name: string, lic: string, project: Option<string>) returns (r: Rule)
    requires Indexes(idx, file) && FirstSuffixAny(idx.packageRules, name, project).Some?
    ensures r in file.rules && RuleMatches(r, name, lic, project) && Quotes(FirstSuffixAny(idx.packageRules, name, project), r)
  {
    SuffixAnyQuotes(idx.packageRules, name, project);
    r :| r in idx.packageRules && r.license == "" && SuffixMatches(r, name, project)
         && Quotes(FirstSuffixAny(idx.packageRules, name, project), r);
    SuffixIsMatched(idx, file, r, name, lic, project);
  }

  lemma QuotedIsMatched(idx: Index, file: File, name: string, lic: string, project: Option<string>) returns (r: Rule)
    requires Indexes(idx, file) && NulFree(name) && forall r :: r in file.rules ==> NulFree(r.package)
    requires BlanketDecision(idx, lic).None? && Decision(idx, name, lic, project).Some?
    ensures r in file.rules && RuleMatches(r, name, lic, project) && Quotes(Decision(idx, name, lic, project), r)
  {
    if FirstMatching(Lookup(idx.packageLicense, Key(name, lic)), project).Some? {
      r := KeyedQuoted(idx, file, name, lic, project);
    } else if FirstSuffix(idx.packageRules, name, lic, project).Some? {
      r := SuffixQuoted(idx, file, name, lic, project);
    } else if FirstMatching(Lookup(idx.packageAny, name), project).Some? {
      r := PackageQuoted(idx, file, name, lic, project);
    } else {
      r := SuffixAnyQuoted(idx, file, name, lic, project);
    }
  }

  /** An exemption quotes what exempts: the last blanket exception of the license, or
      some rule that covers the pair. */
  lemma ReasonQuotesItsRule(idx: Index, file: File, name: string, lic: string, project: Option<string>)
    requires Indexes(idx, file) && NulFree(name) && forall r :: r in file.rules ==> NulFree(r.package)
    ensures lic in idx.blankets ==>
              Decision(idx, name, lic, project) ==
              Some("Blanket exception: " + idx.blankets[lic].id + " – " + idx.blankets[lic].comment)
    ensures Decision(idx, name, lic, project).Some? && !BlanketCovers(file, lic) ==>
              exists r :: r in file.rules && RuleCovers(r, name, lic, project) && Quotes(Decision(idx, name, lic, project), r)
  {
    BlanketIff(idx, file, lic);
    BlanketMatchesMean(file, lic);
    if Decision(idx, name, lic, project).Some? && !BlanketCovers(file, lic) {
      var r := QuotedIsMatched(idx, file, name, lic, project);
      RuleMatchesMean(r, name, lic, project);
    }
  }

  const NulRule := Rule("1", "a", ['b', '\0', 'c'], "", "approved", "")

  lemma NulRuleNamesLicense()
    ensures NamesLicense(NulRule, ['b', '\0', 'c'])
  {
    var l := ['b', '\0', 'c'];
    assert TrimLeft(l) == l && TrimRight(l) == l;
    assert TrimLeft("approved") == "approved" && TrimRight("approved") == "approved";
    assert ToLower("approved") == "approved";
    assert l + "" == l && ToUpper(l)[0] == 'B';
    ReadWord(l, "");
    assert Tokens("") == [];
    var toks := [TokId(l)];
    assert ReadPrimary(toks) == Done(Leaf(l), []);
    assert ReadWith(toks) == Done(Leaf(l), []);
    assert ReadAnd(toks) == Done(Leaf(l), []);
    assert ReadOr(toks) == Done(Leaf(l), []);
  }

  lemma NulRuleGrants()
    ensures Approved(NulRule.status) && ListsLicense(NulRule.license, ['b', '\0', 'c']) && CoversProject(NulRule.project, None)
  {
    NulRuleNamesLicense();
    ApprovedMeans(NulRule.status);
    LicensesMean(NulRule.license, ['b', '\0', 'c']);
    ProjectMeans(NulRule.project, None);
  }

  lemma NulJoined()
    ensures "a" + ['\0'] + ['b', '\0', 'c'] == ['a', '\0', 'b'] + ['\0'] + "c"
  {
  }

  lemma CollidesBy(r: Rule, l: string, name: string, lic: string, project: Option<string>)
    requires Approved(r.status) && r.package != "" && ListsLicense(r.license, l) && CoversProject(r.project, project)
    requires r.package != name && r.package + ['\0'] + l == name + ['\0'] + lic
    ensures Collides(File([], [r]), name, lic, project)
  {
    assert r in File([], [r]).rules;
  }

  lemma NulPairIsNotCovered()
    ensures !Covered(File([], [NulRule]), ['a', '\0', 'b'], "c", None)
  {
    var name := ['a', '\0', 'b'];
    var suffix := "/" + NulRule.package;
    assert |NulRule.package| == 1 && |suffix| == 2 && suffix[0] == '/';
    assert name[1..][0] == '\0';
    assert !HasSuffix(name, suffix) && !NamesPackage(NulRule, name);
    assert forall r :: r in [NulRule] ==> r == NulRule;
  }

  /** With a NUL in a name, a rule for one pair exempts another: the rule for
      package "a" under license "b NUL c" exempts package "a NUL b" under "c". */
  lemma NulKeyExemptsAnotherPair(idx: Index)
    requires Indexes(idx, File([], [NulRule]))
    ensures Decision(idx, ['a', '\0', 'b'], "c", None).Some?
    ensures !Covered(File([], [NulRule]), ['a', '\0', 'b'], "c", None)
  {
    NulRuleGrants();
    NulJoined();
    CollidesBy(NulRule, ['b', '\0', 'c'], ['a', '\0', 'b'], "c", None);
    NulPairIsNotCovered();
    IndexAgreesWithScan(idx, File([], [NulRule]), ['a', '\0', 'b'], "c", None);
  }
}
