/** Projects and their parents (internal/projectgroup/projectgroup.go), the
    groups they are listed in (internal/clickhouse/queries_project_groups.go) and
    the members a parent filter selects (cmd/api-gateway/vuln_filter.go). */
module ProjectGroup {
  import opened Text

  // ---------------------------------------------------------------------
  // Signals and what each project's own say
  // ---------------------------------------------------------------------

  datatype Source = Config | Explicit | Tag | Repo | Document | Purl | Supplier

  datatype Signals = Signals(
    project: string, explicitParent: string, tags: seq<string>,
    sourceRepo: string, documentName: string, rootPurl: string, supplier: string)

  datatype Assignment = Assignment(parent: string, source: Source, owner: string)

  datatype Rule = Rule(parent: string, standalone: bool)

  /** The mapping file, the owner a project's signals give, and lower-casing: any
      rules at all. */
  datatype Rules = Rules(
    matching: (Signals, string) -> Option<Rule>,
    ownerKey: Signals -> (string, Source),
    lower: string -> string)

  datatype Candidate = Candidate(project: string, owner: string, source: Source)

  /** What a project's signals decide by themselves. */
  datatype Verdict = Settled(assignment: Option<Assignment>) | Joins(key: string, candidate: Candidate)

  function TagHits(project: string, tags: seq<string>, names: set<string>): seq<string> {
    if tags == [] then []
    else TagHits(project, tags[..|tags| - 1], names)
         + (if tags[|tags| - 1] != project && tags[|tags| - 1] in names then [tags[|tags| - 1]] else [])
  }

  /** The alphabetically first tag that names another project, or "". */
  function TagParent(s: Signals, names: set<string>): string {
    var hits := Sort(TagHits(s.project, s.tags, names));
    if hits == [] then "" else hits[0]
  }

  lemma {:induction false} TagHitsAre(project: string, tags: seq<string>, names: set<string>, t: string)
    ensures t in TagHits(project, tags, names) <==> t in tags && t != project && t in names
  {
    if tags != [] {
      assert tags == tags[..|tags| - 1] + [tags[|tags| - 1]];
      TagHitsAre(project, tags[..|tags| - 1], names, t);
    }
  }

  lemma TagParentIsFirst(s: Signals, names: set<string>, t: string)
    requires t in s.tags && t != s.project && t in names
    ensures var p := TagParent(s, names); p in s.tags && p != s.project && p in names && AtMost(p, t)
  {
    var hits := TagHits(s.project, s.tags, names);
    SortSorts(hits);
    TagHitsAre(s.project, s.tags, names, t);
    assert t in multiset(hits) && t in multiset(Sort(hits));
    HeadIsLeast(Sort(hits), t);
    assert TagParent(s, names) in multiset(Sort(hits));
    TagHitsAre(s.project, s.tags, names, TagParent(s, names));
  }

  function Classify(s: Signals, rules: Rules, names: set<string>): Verdict {
    var (owner, source) := rules.ownerKey(s);
    match rules.matching(s, owner)
    case Some(g) =>
      Settled(if !g.standalone && g.parent != s.project then Some(Assignment(g.parent, Config, "")) else None)
    case None =>
      var p := TrimSpace(s.explicitParent);
      if p != "" && p != s.project then Settled(Some(Assignment(p, Explicit, "")))
      else
        var t := TagParent(s, names);
        if t != "" then Settled(Some(Assignment(t, Tag, "")))
        else if owner != "" then Joins(rules.lower(owner), Candidate(s.project, owner, source))
        else Settled(None)
  }

  /** What each project's signals decide. */
  type Verdicts = Signals -> Verdict

  function VerdictOf(rules: Rules, names: set<string>): Verdicts {
    s => Classify(s, rules, names)
  }

  /** A project joins a family under its own name. */
  ghost predicate Own(verdict: Verdicts) {
    forall s :: verdict(s).Joins? ==> verdict(s).candidate.project == s.project
  }

  // ---------------------------------------------------------------------
  // Families
  // ---------------------------------------------------------------------

  predicate IsTop(project: string) {
    '/' !in project
  }

  /** The project that heads a family: its only top-level member. */
  ghost predicate Heads(family: set<Candidate>, head: Candidate) {
    head in family && '/' !in head.project && forall m :: m in family && '/' !in m.project ==> m == head
  }

  ghost predicate HasTop(family: set<Candidate>) {
    exists m :: m in family && '/' !in m.project
  }

  /** The member whose project comes first in the alphabet. */
  ghost predicate IsFirst(family: set<Candidate>, first: Candidate) {
    first in family && forall m :: m in family ==> AtMost(first.project, m.project)
  }

  /** What its family decides about a member. */
  ghost predicate FamilyAssigns(family: set<Candidate>, m: Candidate, a: Option<Assignment>) {
    if HasTop(family) then
      if exists head :: Heads(family, head) then
        forall head :: Heads(family, head) ==>
          a == if m.project == head.project then None else Some(Assignment(head.project, m.source, m.owner))
      else a == None
    else if exists other :: other in family && other != m then
      forall first :: IsFirst(family, first) ==> a == Some(Assignment(first.owner, m.source, m.owner))
    else a == None
  }

  ghost function Projects(signals: seq<Signals>): set<string> {
    set s | s in signals :: s.project
  }

  ghost function Family(signals: seq<Signals>, verdict: Verdicts, key: string): set<Candidate> {
    set s | s in signals && verdict(s).Joins? && verdict(s).key == key
      :: verdict(s).candidate
  }

  function Lookup<V>(m: map<string, V>, key: string): Option<V> {
    if key in m then Some(m[key]) else None
  }

  /** The assignment of one project, as the set of all signals determines it. */
  ghost predicate Assigns(signals: seq<Signals>, verdict: Verdicts, s: Signals, a: Option<Assignment>) {
    match verdict(s)
    case Settled(b) => a == b
    case Joins(key, m) => FamilyAssigns(Family(signals, verdict, key), m, a)
  }

  ghost predicate IsResolution(signals: seq<Signals>, verdict: Verdicts, out: map<string, Assignment>) {
    && out.Keys <= Projects(signals)
    && forall s :: s in signals ==> Assigns(signals, verdict, s, Lookup(out, s.project))
  }

  // ---------------------------------------------------------------------
  // The order of precedence, in the fields of the signals
  // ---------------------------------------------------------------------

  /** A parent was given at ingest that is not the project itself. */
  ghost predicate GivenAtIngest(s: Signals, p: string) {
    TrimsTo(s.explicitParent, p) && p != "" && p != s.project
  }

  /** A tag of the project is the name of another. */
  ghost predicate TagNames(s: Signals, names: set<string>, t: string) {
    t in s.tags && t != s.project && t in names
  }

  /** The alphabetically first of those tags, if it is not empty. */
  ghost predicate FirstTag(s: Signals, names: set<string>, t: string) {
    t != "" && TagNames(s, names, t) && forall u :: TagNames(s, names, u) ==> AtMost(t, u)
  }

  /** Neither the mapping file nor ingest nor a tag says anything, but the project
      has an owner. */
  ghost predicate LeftToOwner(s: Signals, rules: Rules, names: set<string>) {
    && rules.matching(s, rules.ownerKey(s).0).None?
    && (forall p :: !GivenAtIngest(s, p)) && (forall t :: !FirstTag(s, names, t))
    && rules.ownerKey(s).0 != ""
  }

  function Claim(s: Signals, rules: Rules): Candidate {
    Candidate(s.project, rules.ownerKey(s).0, rules.ownerKey(s).1)
  }

  /** The projects that only their owner can place, of one owner in any spelling. */
  ghost function Relatives(signals: seq<Signals>, rules: Rules, key: string): set<Candidate> {
    set s | s in signals && LeftToOwner(s, rules, Projects(signals)) && rules.lower(rules.ownerKey(s).0) == key :: Claim(s, rules)
  }

  /** The mapping file comes first, then the parent given at ingest, then the first
      tag in the alphabet, then the family of the owner. */
  ghost predicate ByPrecedence(signals: seq<Signals>, rules: Rules, s: Signals, a: Option<Assignment>) {
    var names, owner := Projects(signals), rules.ownerKey(s).0;
    match rules.matching(s, owner)
    case Some(g) => a == if g.standalone || g.parent == s.project then None else Some(Assignment(g.parent, Config, ""))
    case None =>
      if exists p :: GivenAtIngest(s, p) then exists p :: GivenAtIngest(s, p) && a == Some(Assignment(p, Explicit, ""))
      else if exists t :: FirstTag(s, names, t) then exists t :: FirstTag(s, names, t) && a == Some(Assignment(t, Tag, ""))
      else if owner == "" then a == None
      else FamilyAssigns(Relatives(signals, rules, rules.lower(owner)), Claim(s, rules), a)
  }

  lemma TagParentMeans(s: Signals, names: set<string>)
    ensures forall t :: FirstTag(s, names, t) <==> t == TagParent(s, names) != ""
  {
    var hits, p := TagHits(s.project, s.tags, names), TagParent(s, names);
    SortSorts(hits);
    forall t ensures t in hits <==> TagNames(s, names, t) { TagHitsAre(s.project, s.tags, names, t); }
    forall u | TagNames(s, names, u) ensures TagNames(s, names, p) && AtMost(p, u) { TagParentIsFirst(s, names, u); }
    if hits == [] {
      assert |multiset(Sort(hits))| == 0;
    } else {
      assert TagNames(s, names, hits[0]);
      forall t | FirstTag(s, names, t) ensures t == p { AtMostAntisymmetric(t, p); }
    }
  }

  lemma GivenMeans(s: Signals)
    ensures forall p :: GivenAtIngest(s, p) <==> p == TrimSpace(s.explicitParent) && p != "" && p != s.project
  {
    forall p ensures TrimSpace(s.explicitParent) == p <==> TrimsTo(s.explicitParent, p) { TrimSpaceTrims(s.explicitParent, p); }
  }

  /** A project joins a family exactly when only its owner is left to place it. */
  lemma ClassifyJoins(s: Signals, rules: Rules, names: set<string>)
    ensures Classify(s, rules, names).Joins? <==> LeftToOwner(s, rules, names)
    ensures Classify(s, rules, names).Joins? ==>
              Classify(s, rules, names) == Joins(rules.lower(rules.ownerKey(s).0), Claim(s, rules))
  {
    GivenMeans(s);
    TagParentMeans(s, names);
    var p, t := TrimSpace(s.explicitParent), TagParent(s, names);
    assert GivenAtIngest(s, p) <==> p != "" && p != s.project;
    assert FirstTag(s, names, t) <==> t != "";
  }

  lemma FamilyIsRelatives(signals: seq<Signals>, rules: Rules, key: string)
    ensures Family(signals, VerdictOf(rules, Projects(signals)), key) == Relatives(signals, rules, key)
  {
    var verdict := VerdictOf(rules, Projects(signals));
    forall s
      ensures verdict(s).Joins? && verdict(s).key == key <==>
              LeftToOwner(s, rules, Projects(signals)) && rules.lower(rules.ownerKey(s).0) == key
      ensures verdict(s).Joins? ==> verdict(s).candidate == Claim(s, rules)
    {
      ClassifyJoins(s, rules, Projects(signals));
    }
  }

  /** A resolution places every project by the order of precedence. */
  lemma ResolutionMeans(signals: seq<Signals>, rules: Rules, out: map<string, Assignment>, s: Signals)
    requires IsResolution(signals, VerdictOf(rules, Projects(signals)), out) && s in signals
    ensures ByPrecedence(signals, rules, s, Lookup(out, s.project))
  {
    var names := Projects(signals);
    var verdict := VerdictOf(rules, names);
    assert Assigns(signals, verdict, s, Lookup(out, s.project)) && verdict(s) == Classify(s, rules, names);
    ClassifyJoins(s, rules, names);
    GivenMeans(s);
    TagParentMeans(s, names);
    if LeftToOwner(s, rules, names) { FamilyIsRelatives(signals, rules, rules.lower(rules.ownerKey(s).0)); }
  }

  ghost predicate DistinctProjects(signals: seq<Signals>) {
    forall i, j :: 0 <= i < j < |signals| ==> signals[i].project != signals[j].project
  }

  lemma {:induction false} FirstExists(family: set<Candidate>) returns (first: Candidate)
    requires family != {}
    ensures IsFirst(family, first)
    decreases |family|
  {
    var m :| m in family;
    var rest := family - {m};
    AtMostTotal(m.project, m.project);
    if rest == {} {
      forall x | x in family ensures x == m { assert x == m || x in rest; }
      return m;
    }
    var r := FirstExists(rest);
    AtMostTotal(m.project, r.project);
    first := if AtMost(m.project, r.project) then m else r;
    forall x | x in family ensures AtMost(first.project, x.project) {
      if x != m && first == m { AtMostTransitive(m.project, r.project, x.project); }
    }
  }

  lemma FamilyAssignsOnce(family: set<Candidate>, m: Candidate, a: Option<Assignment>, b: Option<Assignment>)
    requires m in family && FamilyAssigns(family, m, a) && FamilyAssigns(family, m, b)
    ensures a == b
  {
    var first := FirstExists(family);
  }

  lemma SameAssignment(signals: seq<Signals>, other: seq<Signals>, verdict: Verdicts, s: Signals, a: Option<Assignment>, b: Option<Assignment>)
    requires multiset(signals) == multiset(other) && s in signals
    requires Assigns(signals, verdict, s, a) && Assigns(other, verdict, s, b)
    ensures a == b
  {
    var v := verdict(s);
    if v.Joins? {
      SameFamily(signals, other, verdict, v.key);
      assert v.candidate in Family(signals, verdict, v.key);
      FamilyAssignsOnce(Family(signals, verdict, v.key), v.candidate, a, b);
    }
  }

  lemma ResolutionUnique(signals: seq<Signals>, other: seq<Signals>, verdict: Verdicts, out: map<string, Assignment>, out2: map<string, Assignment>)
    requires multiset(signals) == multiset(other)
    requires IsResolution(signals, verdict, out) && IsResolution(other, verdict, out2)
    ensures out == out2
  {
    SameProjects(signals, other);
    forall p | p in Projects(signals) ensures Lookup(out, p) == Lookup(out2, p) {
      var s :| s in signals && s.project == p;
      assert s in multiset(signals) && s in multiset(other);
      SameAssignment(signals, other, verdict, s, Lookup(out, p), Lookup(out2, p));
    }
    SameMaps(Projects(signals), out, out2);
  }

  lemma SameMaps(keys: set<string>, a: map<string, Assignment>, b: map<string, Assignment>)
    requires a.Keys <= keys && b.Keys <= keys && forall p :: p in keys ==> Lookup(a, p) == Lookup(b, p)
    ensures a == b
  {
    forall p ensures p in a <==> p in b { assert p in keys ==> Lookup(a, p) == Lookup(b, p); }
    forall p | p in a ensures a[p] == b[p] { assert Lookup(a, p) == Lookup(b, p); }
  }

  /** Neither the order of the signals nor that of the families matters: the same
      projects always resolve to the same parents. */
  lemma OrderIndependent(signals: seq<Signals>, other: seq<Signals>, rules: Rules, out: map<string, Assignment>, out2: map<string, Assignment>)
    requires multiset(signals) == multiset(other)
    requires IsResolution(signals, VerdictOf(rules, Projects(signals)), out)
    requires IsResolution(other, VerdictOf(rules, Projects(other)), out2)
    ensures out == out2
  {
    SameProjects(signals, other);
    ResolutionUnique(signals, other, VerdictOf(rules, Projects(signals)), out, out2);
  }

  lemma SameProjects(signals: seq<Signals>, other: seq<Signals>)
    requires multiset(signals) == multiset(other)
    ensures Projects(signals) == Projects(other)
  {
    forall s ensures s in signals <==> s in other { assert s in multiset(signals) <==> s in multiset(other); }
  }

  lemma SameFamily(signals: seq<Signals>, other: seq<Signals>, verdict: Verdicts, key: string)
    requires multiset(signals) == multiset(other)
    ensures Family(signals, verdict, key) == Family(other, verdict, key)
  {
    SameProjects(signals, other);
    forall s ensures s in signals <==> s in other { assert s in multiset(signals) <==> s in multiset(other); }
  }

  // ---------------------------------------------------------------------
  // The resolution
  // ---------------------------------------------------------------------

  /** The candidates of one family among the first n signals. */
  ghost function FamilySeq(signals: seq<Signals>, verdict: Verdicts, n: nat, key: string): seq<Candidate>
    requires n <= |signals|
  {
    if n == 0 then []
    else
      var v := verdict(signals[n - 1]);
      FamilySeq(signals, verdict, n - 1, key) + (if v.Joins? && v.key == key then [v.candidate] else [])
  }

  ghost function Members(members: seq<Candidate>): set<Candidate> {
    set m | m in members
  }

  ghost predicate DistinctSeq(members: seq<Candidate>) {
    forall i, j :: 0 <= i < j < |members| ==> members[i].project != members[j].project
  }

  lemma {:induction false} FamilySeqFrom(signals: seq<Signals>, verdict: Verdicts, n: nat, key: string, m: Candidate)
    requires n <= |signals|
    ensures m in FamilySeq(signals, verdict, n, key) <==>
            exists k :: 0 <= k < n && verdict(signals[k]) == Joins(key, m)
  {
    if n > 0 { FamilySeqFrom(signals, verdict, n - 1, key, m); }
  }

  lemma {:induction false} FamilySeqDistinct(signals: seq<Signals>, verdict: Verdicts, n: nat, key: string)
    requires Own(verdict)
    requires n <= |signals| && DistinctProjects(signals)
    ensures DistinctSeq(FamilySeq(signals, verdict, n, key))
    ensures forall m :: m in FamilySeq(signals, verdict, n, key) ==> exists k :: 0 <= k < n && signals[k].project == m.project
  {
    if n > 0 {
      FamilySeqDistinct(signals, verdict, n - 1, key);
    }
  }

  lemma FamilySeqIsFamily(signals: seq<Signals>, verdict: Verdicts, key: string)
    ensures Members(FamilySeq(signals, verdict, |signals|, key)) == Family(signals, verdict, key)
  {
    forall m ensures m in FamilySeq(signals, verdict, |signals|, key) <==> m in Family(signals, verdict, key) {
      FamilySeqFrom(signals, verdict, |signals|, key, m);
      if m in Family(signals, verdict, key) {
        var s :| s in signals && verdict(s) == Joins(key, m);
      }
    }
  }

  /** The owner as written by the member whose project comes first. */
  method FamilyLabel(members: seq<Candidate>) returns (name: string)
    requires members != [] && DistinctSeq(members) && forall m :: m in members ==> m.project != ""
    ensures forall first :: IsFirst(Members(members), first) ==> name == first.owner
  {
    name := members[0].owner;
    var first := "";
    ghost var at := 0;
    for i := 0 to |members|
      invariant i > 0 ==> at < i && first == members[at].project && name == members[at].owner
      invariant i == 0 ==> first == ""
      invariant forall k :: 0 <= k < i ==> AtMost(first, members[k].project)
    {
      assert members[i] in members;
      AtMostTotal(members[i].project, first);
      AtMostTotal(members[i].project, members[i].project);
      if first == "" || (members[i].project != first && AtMost(members[i].project, first)) {
        forall k | 0 <= k < i ensures AtMost(members[i].project, members[k].project) {
          AtMostTransitive(members[i].project, first, members[k].project);
        }
        first, name := members[i].project, members[i].owner;
        at := i;
      }
    }
    assert members[at] in members;
    forall f | IsFirst(Members(members), f) ensures name == f.owner {
      var k :| 0 <= k < |members| && members[k] == f;
      AtMostAntisymmetric(f.project, members[at].project);
    }
  }

  method TopsOf(members: seq<Candidate>) returns (tops: seq<Candidate>)
    requires DistinctSeq(members)
    ensures forall m :: m in tops <==> m in members && IsTop(m.project)
    ensures DistinctSeq(tops)
  {
    tops := [];
    for i := 0 to |members|
      invariant forall m :: m in tops <==> m in members[..i] && IsTop(m.project)
      invariant DistinctSeq(tops)
    {
      assert members[..i + 1] == members[..i] + [members[i]];
      if IsTop(members[i].project) { tops := tops + [members[i]]; }
    }
    assert members[..|members|] == members;
  }

  /** What a family gives its members, everyone else's entry as it was. */
  ghost predicate Assigned(members: seq<Candidate>, before: map<string, Assignment>, out: map<string, Assignment>) {
    && (forall m :: m in members ==> FamilyAssigns(Members(members), m, Lookup(out, m.project)))
    && (forall p :: (forall m :: m in members ==> m.project != p) ==> Lookup(out, p) == Lookup(before, p))
    && (forall p :: p in out ==> p in before || exists m :: m in members && m.project == p)
  }

  /** Gives every member but the head the same parent. */
  method AssignAll(members: seq<Candidate>, head: Option<string>, parent: string, before: map<string, Assignment>)
    returns (out: map<string, Assignment>)
    requires DistinctSeq(members) && forall m :: m in members ==> m.project !in before
    ensures forall m :: m in members ==>
              Lookup(out, m.project) == if head == Some(m.project) then None else Some(Assignment(parent, m.source, m.owner))
    ensures forall p :: (forall m :: m in members ==> m.project != p) ==> Lookup(out, p) == Lookup(before, p)
  {
    out := before;
    for i := 0 to |members|
      invariant forall k :: 0 <= k < i ==>
                  Lookup(out, members[k].project) == if head == Some(members[k].project) then None
                                              else Some(Assignment(parent, members[k].source, members[k].owner))
      invariant forall k :: i <= k < |members| ==> members[k].project !in out
      invariant forall p :: (forall m :: m in members ==> m.project != p) ==> Lookup(out, p) == Lookup(before, p)
    {
      assert members[i] in members;
      if head != Some(members[i].project) { out := out[members[i].project := Assignment(parent, members[i].source, members[i].owner)]; }
    }
  }

  ghost predicate TopsAre(members: seq<Candidate>, tops: seq<Candidate>) {
    DistinctSeq(tops) && forall m :: m in tops <==> m in members && IsTop(m.project)
  }

  /** Members have no entry before, and others the same entry after. */
  ghost predicate Apart(members: seq<Candidate>, before: map<string, Assignment>, out: map<string, Assignment>) {
    && (forall m :: m in members ==> m.project !in before)
    && (forall p :: (forall m :: m in members ==> m.project != p) ==> Lookup(out, p) == Lookup(before, p))
  }

  lemma ApartAssigned(members: seq<Candidate>, before: map<string, Assignment>, out: map<string, Assignment>)
    requires Apart(members, before, out) && forall m :: m in members ==> FamilyAssigns(Members(members), m, Lookup(out, m.project))
    ensures Assigned(members, before, out)
  {
    forall p | p in out ensures p in before || exists m :: m in members && m.project == p {
      if forall m :: m in members ==> m.project != p { assert Lookup(out, p) == Lookup(before, p); }
    }
  }

  lemma OneTop(members: seq<Candidate>, tops: seq<Candidate>, m: Candidate, a: Option<Assignment>)
    requires TopsAre(members, tops) && |tops| == 1 && m in members
    requires a == if m.project == tops[0].project then None else Some(Assignment(tops[0].project, m.source, m.owner))
    ensures FamilyAssigns(Members(members), m, a)
  {
    assert forall t :: t in tops ==> t == tops[0];
    assert tops[0] in tops && Heads(Members(members), tops[0]);
  }

  lemma NoTop(members: seq<Candidate>, tops: seq<Candidate>, name: string, m: Candidate)
    requires TopsAre(members, tops) && tops == [] && |members| >= 2 && DistinctSeq(members) && m in members
    requires forall first :: IsFirst(Members(members), first) ==> name == first.owner
    ensures FamilyAssigns(Members(members), m, Some(Assignment(name, m.source, m.owner)))
  {
    OthersInFamily(members);
    assert forall t :: t in members ==> t !in tops;
  }

  lemma Ambiguous(members: seq<Candidate>, tops: seq<Candidate>, m: Candidate)
    requires TopsAre(members, tops) && DistinctSeq(members) && m in members && |tops| != 1 && (tops == [] ==> |members| < 2)
    ensures FamilyAssigns(Members(members), m, None)
  {
    if tops == [] {
      assert members == [members[0]];
      assert forall t :: t in members ==> t !in tops;
    } else {
      NoSingleTop(members, tops);
    }
  }

  method AssignFamily(members: seq<Candidate>, before: map<string, Assignment>) returns (out: map<string, Assignment>)
    requires members != [] && DistinctSeq(members) && forall m :: m in members ==> m.project !in before
    ensures Assigned(members, before, out)
  {
    var tops := TopsOf(members);
    if |tops| == 1 {
      out := AssignAll(members, Some(tops[0].project), tops[0].project, before);
      forall m | m in members ensures FamilyAssigns(Members(members), m, Lookup(out, m.project)) {
        OneTop(members, tops, m, Lookup(out, m.project));
      }
    } else if |tops| == 0 && |members| >= 2 {
      assert forall m :: m in members ==> m !in tops && !IsTop(m.project);
      assert forall m :: m in members ==> m.project != "";
      var name := FamilyLabel(members);
      out := AssignAll(members, None, name, before);
      forall m | m in members ensures FamilyAssigns(Members(members), m, Lookup(out, m.project)) {
        NoTop(members, tops, name, m);
      }
    } else {
      out := before;
      forall m | m in members ensures FamilyAssigns(Members(members), m, Lookup(out, m.project)) {
        Ambiguous(members, tops, m);
      }
    }
    ApartAssigned(members, before, out);
  }

  lemma OthersInFamily(members: seq<Candidate>)
    requires |members| >= 2 && DistinctSeq(members)
    ensures forall m :: m in members ==> exists other :: other in Members(members) && other != m
  {
    forall m | m in members ensures exists other :: other in Members(members) && other != m {
      assert members[0] in Members(members) && members[1] in Members(members);
    }
  }

  lemma NoSingleTop(members: seq<Candidate>, tops: seq<Candidate>)
    requires |tops| >= 2 && DistinctSeq(tops) && forall m :: m in tops <==> m in members && IsTop(m.project)
    ensures HasTop(Members(members)) && !exists head :: Heads(Members(members), head)
  {
    assert tops[0] in Members(members) && tops[1] in Members(members);
  }

  ghost predicate FamiliesOk(signals: seq<Signals>, verdict: Verdicts, n: nat, families: map<string, seq<Candidate>>)
    requires n <= |signals|
  {
    && (forall key :: key in families <==> FamilySeq(signals, verdict, n, key) != [])
    && (forall key :: key in families ==> families[key] == FamilySeq(signals, verdict, n, key))
  }

  /** Settled projects have their entry, the others none yet. */
  ghost predicate SettledOk(signals: seq<Signals>, verdict: Verdicts, n: nat, out: map<string, Assignment>)
    requires n <= |signals|
  {
    && (forall k :: 0 <= k < n ==>
          Lookup(out, signals[k].project) == if verdict(signals[k]).Settled? then verdict(signals[k]).assignment else None)
    && (forall p :: p in out ==> exists k :: 0 <= k < n && signals[k].project == p)
  }

  lemma FamiliesSame(signals: seq<Signals>, verdict: Verdicts, n: nat, families: map<string, seq<Candidate>>)
    requires n < |signals| && FamiliesOk(signals, verdict, n, families) && verdict(signals[n]).Settled?
    ensures FamiliesOk(signals, verdict, n + 1, families)
  {
    forall key ensures FamilySeq(signals, verdict, n + 1, key) == FamilySeq(signals, verdict, n, key) {}
  }

  lemma FamiliesJoin(signals: seq<Signals>, verdict: Verdicts, n: nat, families: map<string, seq<Candidate>>)
    requires n < |signals| && FamiliesOk(signals, verdict, n, families) && verdict(signals[n]).Joins?
    ensures var v := verdict(signals[n]);
            FamiliesOk(signals, verdict, n + 1, families[v.key := (if v.key in families then families[v.key] else []) + [v.candidate]])
  {
    var v := verdict(signals[n]);
    forall key ensures FamilySeq(signals, verdict, n + 1, key) ==
                       if key == v.key then FamilySeq(signals, verdict, n, key) + [v.candidate] else FamilySeq(signals, verdict, n, key)
    {
    }
  }

  /** The first pass: settled projects get their entry, the others their family. */
  method SortIntoFamilies(signals: seq<Signals>, verdict: Verdicts) returns (families: map<string, seq<Candidate>>, out: map<string, Assignment>)
    requires DistinctProjects(signals)
    ensures FamiliesOk(signals, verdict, |signals|, families) && SettledOk(signals, verdict, |signals|, out)
  {
    families, out := map[], map[];
    for i := 0 to |signals|
      invariant FamiliesOk(signals, verdict, i, families) && SettledOk(signals, verdict, i, out)
    {
      match verdict(signals[i])
      case Settled(a) =>
        FamiliesSame(signals, verdict, i, families);
        SettledNext(signals, verdict, i, out);
        if a.Some? { out := out[signals[i].project := a.value]; }
      case Joins(key, m) =>
        FamiliesJoin(signals, verdict, i, families);
        SettledNext(signals, verdict, i, out);
        families := families[key := (if key in families then families[key] else []) + [m]];
    }
  }

  /** Every project's own signals first, then family by family, in any order. */
  method Resolve(signals: seq<Signals>, rules: Rules) returns (out: map<string, Assignment>)
    requires DistinctProjects(signals)
    ensures IsResolution(signals, VerdictOf(rules, Projects(signals)), out)
    ensures forall s :: s in signals ==> ByPrecedence(signals, rules, s, Lookup(out, s.project))
  {
    var names := set s | s in signals :: s.project;
    var verdict := VerdictOf(rules, names);
    VerdictsOwn(rules, names);
    var families;
    families, out := SortIntoFamilies(signals, verdict);
    out := AssignFamilies(signals, verdict, families, out);
    forall s | s in signals ensures ByPrecedence(signals, rules, s, Lookup(out, s.project)) { ResolutionMeans(signals, rules, out, s); }
  }

  lemma VerdictsOwn(rules: Rules, names: set<string>)
    ensures Own(VerdictOf(rules, names))
  {
    forall s | VerdictOf(rules, names)(s).Joins? ensures VerdictOf(rules, names)(s).candidate.project == s.project {
      assert Classify(s, rules, names).Joins?;
    }
  }

  lemma SettledNext(signals: seq<Signals>, verdict: Verdicts, n: nat, out: map<string, Assignment>)
    requires n < |signals| && DistinctProjects(signals) && SettledOk(signals, verdict, n, out)
    ensures match verdict(signals[n])
            case Settled(Some(a)) => SettledOk(signals, verdict, n + 1, out[signals[n].project := a])
            case _ => SettledOk(signals, verdict, n + 1, out)
  {
    assert signals[n].project !in out;
  }

  /** Projects of families still to be decided have no entry. */
  ghost predicate Undecided(signals: seq<Signals>, verdict: Verdicts, left: set<string>, out: map<string, Assignment>) {
    forall s :: s in signals ==>
      var v := verdict(s);
      if v.Joins? && v.key in left then s.project !in out else Assigns(signals, verdict, s, Lookup(out, s.project))
  }

  method AssignFamilies(signals: seq<Signals>, verdict: Verdicts, families: map<string, seq<Candidate>>, before: map<string, Assignment>)
    returns (out: map<string, Assignment>)
    requires Own(verdict)
    requires DistinctProjects(signals) && FamiliesOk(signals, verdict, |signals|, families) && SettledOk(signals, verdict, |signals|, before)
    ensures IsResolution(signals, verdict, out)
  {
    out := before;
    var left := families.Keys;
    StartUndecided(signals, verdict, families, before);
    while left != {}
      invariant left <= families.Keys && Undecided(signals, verdict, left, out) && out.Keys <= Projects(signals)
    {
      var key :| key in left;
      ghost var was := out;
      FamilyReady(signals, verdict, families, left, key, out);
      out := AssignFamily(families[key], out);
      DecidedNext(signals, verdict, left, key, was, out);
      left := left - {key};
    }
    AllDecided(signals, verdict, out);
  }

  lemma FamilyReady(signals: seq<Signals>, verdict: Verdicts, families: map<string, seq<Candidate>>, left: set<string>, key: string,
                    out: map<string, Assignment>)
    requires Own(verdict) && DistinctProjects(signals) && FamiliesOk(signals, verdict, |signals|, families)
    requires Undecided(signals, verdict, left, out) && key in left && key in families
    ensures families[key] == FamilySeq(signals, verdict, |signals|, key) && families[key] != []
    ensures DistinctSeq(families[key]) && forall m :: m in families[key] ==> m.project !in out
  {
    MembersUndecided(signals, verdict, left, key, out);
  }

  lemma AllDecided(signals: seq<Signals>, verdict: Verdicts, out: map<string, Assignment>)
    requires Undecided(signals, verdict, {}, out) && out.Keys <= Projects(signals)
    ensures IsResolution(signals, verdict, out)
  {
  }

  lemma StartUndecided(signals: seq<Signals>, verdict: Verdicts, families: map<string, seq<Candidate>>, out: map<string, Assignment>)
    requires FamiliesOk(signals, verdict, |signals|, families) && SettledOk(signals, verdict, |signals|, out)
    ensures Undecided(signals, verdict, families.Keys, out) && out.Keys <= Projects(signals)
  {
    forall s | s in signals && verdict(s).Joins?
      ensures verdict(s).key in families
    {
      var k :| 0 <= k < |signals| && signals[k] == s;
      FamilySeqFrom(signals, verdict, |signals|, verdict(s).key, verdict(s).candidate);
    }
    forall p | p in out ensures p in Projects(signals) {
      var k :| 0 <= k < |signals| && signals[k].project == p;
      assert signals[k] in signals;
    }
  }

  lemma MembersUndecided(signals: seq<Signals>, verdict: Verdicts, left: set<string>, key: string, out: map<string, Assignment>)
    requires Own(verdict)
    requires Undecided(signals, verdict, left, out) && key in left && DistinctProjects(signals)
    ensures DistinctSeq(FamilySeq(signals, verdict, |signals|, key))
    ensures forall m :: m in FamilySeq(signals, verdict, |signals|, key) ==> m.project !in out && m.project in Projects(signals)
  {
    FamilySeqDistinct(signals, verdict, |signals|, key);
    forall m | m in FamilySeq(signals, verdict, |signals|, key) ensures m.project !in out && m.project in Projects(signals) {
      FamilySeqFrom(signals, verdict, |signals|, key, m);
      var k :| 0 <= k < |signals| && verdict(signals[k]) == Joins(key, m);
      assert signals[k] in signals && signals[k].project == m.project;
    }
  }

  lemma DecidedOne(signals: seq<Signals>, verdict: Verdicts, left: set<string>, key: string,
                   was: map<string, Assignment>, out: map<string, Assignment>, s: Signals)
    requires Own(verdict)
    requires DistinctProjects(signals) && Undecided(signals, verdict, left, was) && s in signals
    requires Assigned(FamilySeq(signals, verdict, |signals|, key), was, out)
    ensures var v := verdict(s);
            if v.Joins? && v.key == key then Assigns(signals, verdict, s, Lookup(out, s.project)) else Lookup(out, s.project) == Lookup(was, s.project)
  {
    var v := verdict(s);
    var members := FamilySeq(signals, verdict, |signals|, key);
    var k :| 0 <= k < |signals| && signals[k] == s;
    if v.Joins? && v.key == key {
      FamilySeqFrom(signals, verdict, |signals|, key, v.candidate);
      FamilySeqIsFamily(signals, verdict, key);
    } else {
      forall m | m in members ensures m.project != s.project {
        FamilySeqFrom(signals, verdict, |signals|, key, m);
        var j :| 0 <= j < |signals| && verdict(signals[j]) == Joins(key, m);
        assert j != k;
      }
    }
  }

  lemma DecidedNext(signals: seq<Signals>, verdict: Verdicts, left: set<string>, key: string,
                    was: map<string, Assignment>, out: map<string, Assignment>)
    requires Own(verdict)
    requires DistinctProjects(signals) && Undecided(signals, verdict, left, was) && key in left
    requires Assigned(FamilySeq(signals, verdict, |signals|, key), was, out) && was.Keys <= Projects(signals)
    ensures Undecided(signals, verdict, left - {key}, out) && out.Keys <= Projects(signals)
  {
    forall s | s in signals
      ensures var v := verdict(s);
              if v.Joins? && v.key in left - {key} then s.project !in out else Assigns(signals, verdict, s, Lookup(out, s.project))
    {
      DecidedOne(signals, verdict, left, key, was, out, s);
    }
    MembersUndecided(signals, verdict, left, key, was);
  }
}
