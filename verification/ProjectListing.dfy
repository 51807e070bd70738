/** The groups projects are listed in (QueryProjectGroups in
    internal/clickhouse/queries_project_groups.go) and the projects a parent
    filter selects (parentMembers in cmd/api-gateway/vuln_filter.go): two
    computations over the same assignments that must agree. */
module ProjectListing {
  import opened Text
  import opened ProjectGroup

  type Assignments = map<string, Assignment>

  datatype Project = Project(name: string, sbomCount: nat, latestIngested: string)

  /** Heads: the projects, or owners, that some project names as its parent. */
  function HeadsOf(assignments: Assignments): set<string> {
    set p | p in assignments :: assignments[p].parent
  }

  /** The group a project is listed under. The hierarchy is one level deep. */
  function GroupName(project: string, assignments: Assignments, heads: set<string>): string {
    if project in heads then project
    else if project in assignments then assignments[project].parent
    else project
  }

  // ---------------------------------------------------------------------
  // Grouping
  // ---------------------------------------------------------------------

  function GroupOf(projects: seq<Project>, group: string, a: Assignments): seq<Project> {
    if projects == [] then []
    else
      var n := |projects| - 1;
      GroupOf(projects[..n], group, a) + (if GroupName(projects[n].name, a, HeadsOf(a)) == group then [projects[n]] else [])
  }

  type Groups = map<string, seq<Project>>

  predicate GroupedAt(projects: seq<Project>, a: Assignments, byGroup: Groups, g: string) {
    (if g in byGroup then byGroup[g] else []) == GroupOf(projects, g, a) && (g in byGroup <==> GroupOf(projects, g, a) != [])
  }

  /** byGroup files the projects, and has no empty group. */
  ghost predicate Grouped(projects: seq<Project>, a: Assignments, byGroup: Groups) {
    forall g :: GroupedAt(projects, a, byGroup, g)
  }

  method HeadSet(assignments: Assignments) returns (heads: set<string>)
    ensures heads == HeadsOf(assignments)
  {
    heads := {};
    var left := assignments.Keys;
    while left != {}
      invariant left <= assignments.Keys
      invariant heads == set p | p in assignments && p !in left :: assignments[p].parent
    {
      var p :| p in left;
      left := left - {p};
      heads := heads + {assignments[p].parent};
    }
  }

  /** Files every project under its group's name. */
  method GroupProjects(projects: seq<Project>, assignments: Assignments) returns (byGroup: Groups)
    ensures Grouped(projects, assignments, byGroup)
  {
    var heads := HeadSet(assignments);
    byGroup := map[];
    for i := 0 to |projects|
      invariant Grouped(projects[..i], assignments, byGroup)
    {
      assert projects[..i + 1][..i] == projects[..i];
      var g := GroupName(projects[i].name, assignments, heads);
      GroupsNext(projects[..i], projects[i], assignments, byGroup);
      assert projects[..i] + [projects[i]] == projects[..i + 1];
      byGroup := byGroup[g := (if g in byGroup then byGroup[g] else []) + [projects[i]]];
    }
    assert projects[..|projects|] == projects;
  }

  lemma GroupOfNext(projects: seq<Project>, p: Project, group: string, a: Assignments)
    ensures GroupOf(projects + [p], group, a)
            == GroupOf(projects, group, a) + (if GroupName(p.name, a, HeadsOf(a)) == group then [p] else [])
  {
    assert (projects + [p])[..|projects|] == projects;
  }

  lemma GroupsNext(projects: seq<Project>, p: Project, a: Assignments, byGroup: Groups)
    requires Grouped(projects, a, byGroup)
    ensures var g := GroupName(p.name, a, HeadsOf(a));
            Grouped(projects + [p], a, byGroup[g := (if g in byGroup then byGroup[g] else []) + [p]])
  {
    var own := GroupName(p.name, a, HeadsOf(a));
    var next := byGroup[own := (if own in byGroup then byGroup[own] else []) + [p]];
    forall g ensures GroupedAt(projects + [p], a, next, g) {
      assert GroupedAt(projects, a, byGroup, g);
      GroupOfNext(projects, p, g, a);
    }
  }

  /** A project is in its own group as often as it is listed, and in no other. */
  lemma {:induction false} GroupOfCounts(projects: seq<Project>, group: string, a: Assignments, x: Project)
    ensures multiset(GroupOf(projects, group, a))[x] == if GroupName(x.name, a, HeadsOf(a)) == group then multiset(projects)[x] else 0
  {
    if projects != [] {
      var n := |projects| - 1;
      assert projects == projects[..n] + [projects[n]];
      GroupOfCounts(projects[..n], group, a, x);
    }
  }

  // ---------------------------------------------------------------------
  // Conservation
  // ---------------------------------------------------------------------

  /** The members of the named groups, one group after the other. */
  function Flatten(names: seq<string>, byGroup: Groups): seq<Project>
    requires forall g :: g in names ==> g in byGroup
  {
    if names == [] then []
    else Flatten(names[..|names| - 1], byGroup) + byGroup[names[|names| - 1]]
  }

  predicate NoRepeats(names: seq<string>) {
    forall i, j :: 0 <= i < j < |names| ==> names[i] != names[j]
  }

  lemma MultisetConcat(a: seq<Project>, b: seq<Project>)
    ensures multiset(a + b) == multiset(a) + multiset(b)
  {
  }

  lemma {:induction false} FlattenCounts(projects: seq<Project>, a: Assignments, byGroup: Groups, names: seq<string>, x: Project)
    requires Grouped(projects, a, byGroup) && NoRepeats(names) && forall g :: g in names ==> g in byGroup
    ensures multiset(Flatten(names, byGroup))[x]
            == if GroupName(x.name, a, HeadsOf(a)) in names then multiset(projects)[x] else 0
  {
    if names != [] {
      var n := |names| - 1;
      assert names == names[..n] + [names[n]];
      assert GroupedAt(projects, a, byGroup, names[n]);
      FlattenCounts(projects, a, byGroup, names[..n], x);
      GroupOfCounts(projects, names[n], a, x);
      MultisetConcat(Flatten(names[..n], byGroup), byGroup[names[n]]);
    }
  }

  /** Grouping partitions the projects: any listing of all groups, each once, has
      every project exactly as often as before. */
  lemma GroupsPartition(projects: seq<Project>, a: Assignments, byGroup: Groups, names: seq<string>)
    requires Grouped(projects, a, byGroup) && NoRepeats(names) && forall g :: g in names <==> g in byGroup
    ensures multiset(Flatten(names, byGroup)) == multiset(projects)
  {
    forall x ensures multiset(Flatten(names, byGroup))[x] == multiset(projects)[x] {
      assert GroupedAt(projects, a, byGroup, GroupName(x.name, a, HeadsOf(a)));
      FlattenCounts(projects, a, byGroup, names, x);
      GroupOfCounts(projects, GroupName(x.name, a, HeadsOf(a)), a, x);
    }
  }

  function SbomSum(projects: seq<Project>): nat {
    if projects == [] then 0 else SbomSum(projects[..|projects| - 1]) + projects[|projects| - 1].sbomCount
  }

  lemma {:induction false} SumConcat(a: seq<Project>, b: seq<Project>)
    ensures SbomSum(a + b) == SbomSum(a) + SbomSum(b)
  {
    if b == [] {
      assert a + b == a;
    } else {
      assert (a + b)[..|a + b| - 1] == a + b[..|b| - 1];
      SumConcat(a, b[..|b| - 1]);
    }
  }

  lemma SumOne(p: Project)
    ensures SbomSum([p]) == p.sbomCount
  {
    assert [p][..0] == [];
  }

  lemma SumAround(l: seq<Project>, x: Project, r: seq<Project>)
    ensures SbomSum(l + [x] + r) == SbomSum(l + r) + x.sbomCount
  {
    SumConcat(l + [x], r);
    SumConcat(l, [x]);
    SumOne(x);
    SumConcat(l, r);
  }

  lemma SplitAround<T>(b: seq<T>, k: nat)
    requires k < |b|
    ensures b[..k] + [b[k]] + b[k + 1..] == b
  {
  }

  lemma SumWithout(b: seq<Project>, k: nat)
    requires k < |b|
    ensures SbomSum(b) == SbomSum(b[..k] + b[k + 1..]) + b[k].sbomCount
  {
    SplitAround(b, k);
    SumAround(b[..k], b[k], b[k + 1..]);
  }

  lemma MultisetWithout(b: seq<Project>, k: nat)
    requires k < |b|
    ensures multiset(b) == multiset(b[..k] + b[k + 1..]) + multiset{b[k]}
  {
    SplitAround(b, k);
  }

  lemma {:induction false} SumPermutes(a: seq<Project>, b: seq<Project>)
    requires multiset(a) == multiset(b)
    ensures SbomSum(a) == SbomSum(b)
    decreases |a|
  {
    assert |multiset(a)| == |a| && |multiset(b)| == |b|;
    if a != [] {
      var n := |a| - 1;
      assert a == a[..n] + [a[n]];
      assert a[n] in multiset(b);
      var k :| 0 <= k < |b| && b[k] == a[n];
      MultisetWithout(b, k);
      MultisetConcat(a[..n], [a[n]]);
      assert multiset([a[n]]) == multiset{a[n]};
      assert multiset(a[..n]) == multiset(a) - multiset{a[n]};
      assert multiset(b[..k] + b[k + 1..]) == multiset(b) - multiset{b[k]};
      SumWithout(b, k);
      SumPermutes(a[..n], b[..k] + b[k + 1..]);
    }
  }

  /** One row of the listing. */
  datatype Group = Group(name: string, projectCount: nat, sbomCount: nat, latestIngested: string)

  method BuildGroup(name: string, members: seq<Project>) returns (g: Group)
    ensures g.name == name && g.projectCount == |members| && g.sbomCount == SbomSum(members)
    ensures forall m :: m in members ==> AtMost(m.latestIngested, g.latestIngested)
    ensures g.latestIngested == "" || exists m :: m in members && m.latestIngested == g.latestIngested
  {
    g := Group(name, |members|, 0, "");
    for i := 0 to |members|
      invariant g.name == name && g.projectCount == |members| && g.sbomCount == SbomSum(members[..i])
      invariant forall k :: 0 <= k < i ==> AtMost(members[k].latestIngested, g.latestIngested)
      invariant g.latestIngested == "" || exists m :: m in members && m.latestIngested == g.latestIngested
    {
      assert members[..i + 1][..i] == members[..i];
      g := g.(sbomCount := g.sbomCount + members[i].sbomCount);
      AtMostTotal(members[i].latestIngested, g.latestIngested);
      AtMostTotal(members[i].latestIngested, members[i].latestIngested);
      if !AtMost(members[i].latestIngested, g.latestIngested) {
        forall k | 0 <= k < i ensures AtMost(members[k].latestIngested, members[i].latestIngested) {
          AtMostTransitive(members[k].latestIngested, g.latestIngested, members[i].latestIngested);
        }
        assert members[i] in members;
        g := g.(latestIngested := members[i].latestIngested);
      }
    }
    assert members[..|members|] == members;
  }

  function ProjectTotal(groups: seq<Group>): nat {
    if groups == [] then 0 else ProjectTotal(groups[..|groups| - 1]) + groups[|groups| - 1].projectCount
  }

  function SbomTotal(groups: seq<Group>): nat {
    if groups == [] then 0 else SbomTotal(groups[..|groups| - 1]) + groups[|groups| - 1].sbomCount
  }

  /** The rows of the named groups. */
  ghost predicate Rows(names: seq<string>, byGroup: Groups, groups: seq<Group>) {
    && |groups| == |names| && (forall g :: g in names ==> g in byGroup)
    && forall i :: 0 <= i < |names| ==> groups[i].projectCount == |byGroup[names[i]]| && groups[i].sbomCount == SbomSum(byGroup[names[i]])
  }

  lemma {:induction false} RowsTotal(names: seq<string>, byGroup: Groups, groups: seq<Group>)
    requires Rows(names, byGroup, groups)
    ensures ProjectTotal(groups) == |Flatten(names, byGroup)| && SbomTotal(groups) == SbomSum(Flatten(names, byGroup))
  {
    if names != [] {
      var n := |names| - 1;
      RowsTotal(names[..n], byGroup, groups[..n]);
      SumConcat(Flatten(names[..n], byGroup), byGroup[names[n]]);
    }
  }

  /** The counts of all groups add up to those of all projects. */
  lemma CountsConserved(projects: seq<Project>, a: Assignments, byGroup: Groups, names: seq<string>, groups: seq<Group>)
    requires Grouped(projects, a, byGroup) && NoRepeats(names) && (forall g :: g in names <==> g in byGroup) && Rows(names, byGroup, groups)
    ensures ProjectTotal(groups) == |projects| && SbomTotal(groups) == SbomSum(projects)
  {
    GroupsPartition(projects, a, byGroup, names);
    RowsTotal(names, byGroup, groups);
    SumPermutes(Flatten(names, byGroup), projects);
    assert |multiset(projects)| == |projects| && |multiset(Flatten(names, byGroup))| == |Flatten(names, byGroup)|;
  }

  // ---------------------------------------------------------------------
  // Paging
  // ---------------------------------------------------------------------

  /** Unsigned 64-bit arithmetic wraps around. */
  const Width := 0x1_0000_0000_0000_0000

  function Clamp(k: nat, total: nat): nat {
    if k > total then total else k
  }

  /** size names from a place on, as far as there are any. */
  function Slice<T>(names: seq<T>, from: nat, size: nat): seq<T> {
    names[Clamp(from, |names|)..Clamp(from + size, |names|)]
  }

  /** How many names come before a page. */
  function Before(page: nat, size: nat): nat {
    ((if page == 0 then 1 else page) - 1) * size
  }

  function PageOf<T>(names: seq<T>, page: nat, size: nat): seq<T> {
    Slice(names, Before(page, size) % Width, size)
  }

  function Upto<T>(names: seq<T>, k: nat): seq<T> {
    names[..Clamp(k, |names|)]
  }

  /** The pages up to n, one after the other. */
  function FirstPages<T>(names: seq<T>, n: nat, size: nat): seq<T> {
    if n == 0 then [] else FirstPages(names, n - 1, size) + PageOf(names, n, size)
  }

  /** A page so far behind that its place wraps around to one that has names. */
  predicate Spurious(total: nat, page: nat, size: nat) {
    Before(page, size) >= Width && Before(page, size) % Width < total
  }

  lemma SliceFollows<T>(names: seq<T>, k: nat, size: nat)
    ensures Upto(names, k) + Slice(names, k, size) == Upto(names, k + size)
  {
  }

  lemma NotWrapped(x: nat)
    ensures x < Width ==> x % Width == x
  {
  }

  /** A page is what it should be if and only if it is not spurious. */
  lemma PageIsTrue<T>(names: seq<T>, page: nat, size: nat)
    requires |names| < Width
    ensures PageOf(names, page, size) == Slice(names, Before(page, size), size) <==> !Spurious(|names|, page, size)
    ensures Spurious(|names|, page, size) ==> PageOf(names, page, size) != []
    ensures page <= 1 ==> PageOf(names, page, size) == if size < |names| then names[..size] else names
  {
    var k := Before(page, size);
    if size > 0 { WrappedSlice(names, k, size); }
    if page <= 1 { assert k == 0 && k % Width == 0; }
  }

  lemma WrappedSlice<T>(names: seq<T>, k: nat, size: nat)
    requires |names| < Width && size > 0
    ensures Slice(names, k % Width, size) == Slice(names, k, size) <==> !(k >= Width && k % Width < |names|)
    ensures k % Width < |names| ==> Slice(names, k % Width, size) != []
  {
    NotWrapped(k);
    var place := k % Width;
    if k >= Width {
      assert Slice(names, k, size) == [];
      if place < |names| { assert Slice(names, place, size)[0] == names[place]; }
    }
  }

  lemma BeforeNext(n: nat, size: nat)
    requires n > 0
    ensures Before(n, size) == (n - 1) * size && n * size == Before(n, size) + size
  {
    assert n * size == (n - 1) * size + size;
  }

  /** One more page. */
  lemma PageAppends<T>(names: seq<T>, n: nat, size: nat, done: nat, got: seq<T>)
    requires |names| < Width && Before(n, size) == done
    requires got == Upto(names, done) || |got| > |names|
    ensures Spurious(|names|, n, size) || |got| > |names| ==> |got + PageOf(names, n, size)| > |names|
    ensures got == Upto(names, done) && !Spurious(|names|, n, size) ==> got + PageOf(names, n, size) == Upto(names, done + size)
  {
    PageIsTrue(names, n, size);
    SliceFollows(names, done, size);
  }

  ghost predicate SomeSpurious(total: nat, n: nat, size: nat) {
    exists k :: 1 <= k <= n && Spurious(total, k, size)
  }

  /** Pages neither overlap nor leave anything out, if and only if none of them is
      spurious. */
  lemma {:induction false} PagesCover<T>(names: seq<T>, n: nat, size: nat)
    requires |names| < Width
    ensures FirstPages(names, n, size) == Upto(names, n * size) <==> !SomeSpurious(|names|, n, size)
    ensures SomeSpurious(|names|, n, size) ==> |FirstPages(names, n, size)| > |names|
  {
    if n > 0 {
      PagesCover(names, n - 1, size);
      BeforeNext(n, size);
      PageAppends(names, n, size, Before(n, size), FirstPages(names, n - 1, size));
    }
  }

  /** Page 2^63 + 1 of two names each is the first page again. */
  lemma FarPageIsFirst<T>(names: seq<T>)
    requires names != []
    ensures Spurious(|names|, 0x8000_0000_0000_0001, 2)
    ensures PageOf(names, 0x8000_0000_0000_0001, 2) == PageOf(names, 1, 2)
  {
    assert Before(0x8000_0000_0000_0001, 2) == Width && Before(1, 2) == 0;
  }

  // ---------------------------------------------------------------------
  // The members of a parent
  // ---------------------------------------------------------------------

  method ParentMembers(parents: seq<string>, assignments: Assignments) returns (members: seq<string>)
    ensures forall p :: p in members <==>
              p in parents || (p in assignments && assignments[p].parent in parents && p !in HeadsOf(assignments))
    ensures NoRepeats(parents) ==> NoRepeats(members)
  {
    var want := set p | p in parents;
    var heads := HeadSet(assignments);
    members := parents;
    var left := assignments.Keys;
    while left != {}
      invariant left <= assignments.Keys
      invariant forall p :: p in members <==>
                  p in parents || (p in assignments && p !in left && assignments[p].parent in parents && p !in heads)
      invariant NoRepeats(parents) ==> NoRepeats(members)
    {
      var p :| p in left;
      left := left - {p};
      if assignments[p].parent in want && p !in heads && p !in want { members := members + [p]; }
    }
  }

  /** The projects listed under the parents' groups. */
  predicate ListedUnder(project: string, parents: seq<string>, a: Assignments) {
    GroupName(project, a, HeadsOf(a)) in parents
  }

  predicate IsMember(p: string, parents: seq<string>, a: Assignments) {
    p in parents || (p in a && a[p].parent in parents && p !in HeadsOf(a))
  }

  /** The filter selects the projects of the parents' groups exactly when no parent
      is itself listed under another one: heading a group, or having no parent, is
      enough for that. */
  lemma MembersAreGroups(projects: set<string>, parents: seq<string>, a: Assignments)
    ensures (forall p :: p in projects ==> (IsMember(p, parents, a) <==> ListedUnder(p, parents, a)))
            <==> forall q :: q in projects && q in parents ==> ListedUnder(q, parents, a)
    ensures (forall q :: q in parents ==> q in HeadsOf(a) || q !in a) ==>
              forall p :: p in projects ==> (IsMember(p, parents, a) <==> ListedUnder(p, parents, a))
  {
    forall p ensures p !in parents ==> (IsMember(p, parents, a) <==> ListedUnder(p, parents, a)) {
      if p in HeadsOf(a) { assert GroupName(p, a, HeadsOf(a)) == p; }
    }
    forall q ensures q in parents ==> IsMember(q, parents, a) {}
  }

  /** "child" is assigned to "top" and heads no group: asked for as a parent, it is
      selected, but listed elsewhere. */
  lemma AssignedParentIsListedElsewhere()
    ensures var a := map["child" := Assignment("top", Explicit, "")];
            IsMember("child", ["child"], a) && !ListedUnder("child", ["child"], a)
  {
    var a := map["child" := Assignment("top", Explicit, "")];
    assert a["child"].parent == "top" && HeadsOf(a) == {"top"} && "child" != "top";
  }
}
