/** Dependency depth of packages (internal/depgraph/depth.go): a breadth-first
    walk from the described roots and direct seeds, and the shortest distances
    it computes. Package indices are naturals; depths are 16 bits wide. */
module Depth {
  import opened Text

  newtype uint16 = x: int | 0 <= x < 0x1_0000

  const Unknown: uint16 := 65535

  // ---------------------------------------------------------------------
  // The relationship graph
  // ---------------------------------------------------------------------

  datatype Direction = Ignore | Forward | Backward

  function WithoutUnderscores(s: string): string {
    if s == [] then []
    else if s[0] == '_' then WithoutUnderscores(s[1..])
    else [s[0]] + WithoutUnderscores(s[1..])
  }

  const ForwardTypes: set<string> := {
    "dependson", "contains", "hasprerequisite", "prerequisite", "staticlink", "dynamiclink",
    "runtimedependency", "builddependency", "devdependency", "optionaldependency",
    "provideddependency", "testdependency", "optionalcomponent", "packageof", "packages"
  }

  const BackwardTypes: set<string> := {
    "dependencyof", "runtimedependencyof", "builddependencyof", "devdependencyof",
    "optionaldependencyof", "provideddependencyof", "testdependencyof", "containedby", "prerequisitefor"
  }

  function ClassifyRelationship(relType: string): Direction {
    var key := ToLower(WithoutUnderscores(relType));
    if key in ForwardTypes then Forward
    else if key in BackwardTypes then Backward
    else Ignore
  }

  /** The parallel relationship arrays of one document. */
  datatype Relations = Relations(sources: seq<nat>, targets: seq<nat>, types: seq<string>) {
    function Count(): nat {
      if |sources| <= |targets| then |sources| else |targets|
    }

    /** The edge relationship i contributes to the walk over n packages, if any. */
    function EdgeAt(n: nat, i: nat): (r: Option<(nat, nat)>)
      requires i < Count()
      ensures r.Some? ==> r.value.0 < n && r.value.1 < n && r.value.0 != r.value.1
    {
      var src, tgt := sources[i], targets[i];
      if src >= n || tgt >= n || src == tgt then None
      else match ClassifyRelationship(if i < |types| then types[i] else "")
        case Forward => Some((src, tgt))
        case Backward => Some((tgt, src))
        case Ignore => None
    }

    /** What each relationship contributes, in order. */
    function Edges(n: nat): (es: Edges)
      ensures |es| == Count()
      ensures forall u: nat, v: nat :: Some((u, v)) in es ==> u < n && v < n && u != v
    {
      seq(Count(), i requires 0 <= i < Count() => EdgeAt(n, i))
    }

    /** u depends on v. */
    ghost predicate Edge(n: nat, u: nat, v: nat) {
      Some((u, v)) in Edges(n)
    }
  }

  type Edges = seq<Option<(nat, nat)>>

  // ---------------------------------------------------------------------
  // What the relationships say
  // ---------------------------------------------------------------------

  /** The text is the name, read without its underscores and in any case. */
  predicate Spells(text: string, name: string) {
    if text == [] then name == []
    else if text[0] == '_' then Spells(text[1..], name)
    else name != [] && IsSmallOf(text[0], name[0]) && Spells(text[1..], name[1..])
  }

  ghost predicate SpellsOneOf(text: string, names: set<string>) {
    exists name :: name in names && Spells(text, name)
  }

  /** The source of such a relationship depends on its target. */
  ghost predicate PointsForward(relType: string) {
    SpellsOneOf(relType, {
      "dependson", "contains", "hasprerequisite", "prerequisite", "staticlink", "dynamiclink",
      "runtimedependency", "builddependency", "devdependency", "optionaldependency",
      "provideddependency", "testdependency", "optionalcomponent", "packageof", "packages"})
  }

  /** The target of such a relationship depends on its source. */
  ghost predicate PointsBackward(relType: string) {
    SpellsOneOf(relType, {
      "dependencyof", "runtimedependencyof", "builddependencyof", "devdependencyof",
      "optionaldependencyof", "provideddependencyof", "testdependencyof", "containedby", "prerequisitefor"})
  }

  /** Relationship i says that u depends on v. */
  ghost predicate Says(rel: Relations, i: nat, u: nat, v: nat) {
    && i < |rel.sources| && i < |rel.targets| && i < |rel.types|
    && ( || (rel.sources[i] == u && rel.targets[i] == v && PointsForward(rel.types[i]))
         || (rel.sources[i] == v && rel.targets[i] == u && PointsBackward(rel.types[i])))
  }

  predicate IsLetters(name: string) {
    forall k :: 0 <= k < |name| ==> 'a' <= name[k] <= 'z'
  }

  lemma {:induction false} SpellsKey(text: string, name: string)
    requires IsLetters(name)
    ensures Spells(text, name) <==> ToLower(WithoutUnderscores(text)) == name
  {
    if text == [] {
    } else if text[0] == '_' {
      SpellsKey(text[1..], name);
    } else {
      var key := ToLower(WithoutUnderscores(text));
      assert key[0] == LowerChar(text[0]);
      assert key[1..] == ToLower(WithoutUnderscores(text[1..]));
      if name != [] {
        SpellsKey(text[1..], name[1..]);
        assert name == [name[0]] + name[1..] && key == [key[0]] + key[1..];
      }
    }
  }

  lemma ForwardAreLetters(name: string)
    requires name in ForwardTypes
    ensures IsLetters(name) && name != []
  {
  }

  lemma BackwardAreLetters(name: string)
    requires name in BackwardTypes
    ensures IsLetters(name) && name != []
  {
  }

  lemma TypeSpelled(relType: string, names: set<string>)
    requires names == ForwardTypes || names == BackwardTypes
    ensures SpellsOneOf(relType, names) <==> ToLower(WithoutUnderscores(relType)) in names
  {
    forall name | name in names ensures IsLetters(name) && (Spells(relType, name) <==> ToLower(WithoutUnderscores(relType)) == name) {
      if name in ForwardTypes { ForwardAreLetters(name); } else { BackwardAreLetters(name); }
      SpellsKey(relType, name);
    }
  }

  lemma TypesDiffer(name: string)
    requires name in ForwardTypes
    ensures name !in BackwardTypes
  {
  }

  /** The direction of a relationship is that of the name its type spells. */
  lemma DirectionIsSpelled(relType: string)
    ensures ClassifyRelationship(relType) == Forward <==> PointsForward(relType)
    ensures ClassifyRelationship(relType) == Backward <==> PointsBackward(relType)
    ensures PointsForward(relType) || PointsBackward(relType) ==> relType != ""
  {
    TypeSpelled(relType, ForwardTypes);
    TypeSpelled(relType, BackwardTypes);
    var key := ToLower(WithoutUnderscores(relType));
    if key in ForwardTypes { ForwardAreLetters(key); TypesDiffer(key); }
    if key in BackwardTypes { BackwardAreLetters(key); }
  }

  lemma EdgeAtSays(rel: Relations, n: nat, i: nat, u: nat, v: nat)
    requires i < rel.Count()
    ensures rel.EdgeAt(n, i) == Some((u, v)) <==> u < n && v < n && u != v && Says(rel, i, u, v)
  {
    DirectionIsSpelled(if i < |rel.types| then rel.types[i] else "");
  }

  /** A stretch of letters spells itself in any case; an underscore is skipped. */
  lemma {:induction false} SpellsOn(text: string, name: string, rest: string, restName: string)
    requires |text| == |name| && Spells(rest, restName)
    requires forall k :: 0 <= k < |text| ==> text[k] != '_' && IsSmallOf(text[k], name[k])
    ensures Spells(text + rest, name + restName) && Spells("_" + rest, restName)
  {
    assert ("_" + rest)[1..] == rest;
    if text == [] {
      assert text + rest == rest && name + restName == restName;
    } else {
      SpellsOn(text[1..], name[1..], rest, restName);
      assert (text + rest)[1..] == text[1..] + rest && (name + restName)[1..] == name[1..] + restName;
    }
  }

  /** The spellings of the commonest relationship and of its inverse. */
  lemma SpellingOfDependsOn()
    ensures Spells("DEPENDS_ON", "dependson")
  {
    SpellsOn("ON", "on", "", "");
    SpellsOn("DEPENDS", "depends", "_" + "ON", "on");
    assert "DEPENDS" + ("_" + "ON") == "DEPENDS_ON" && "depends" + "on" == "dependson";
  }

  lemma SpellingOfDependencyOf()
    ensures Spells("DEPENDENCY_OF", "dependencyof")
  {
    SpellsOn("OF", "of", "", "");
    SpellsOn("DEPENDENCY", "dependency", "_" + "OF", "of");
    assert "DEPENDENCY" + ("_" + "OF") == "DEPENDENCY_OF" && "dependency" + "of" == "dependencyof";
  }

  lemma DependsOnPointsForward(relType: string)
    requires Spells(relType, "dependson")
    ensures PointsForward(relType)
  {
  }

  lemma DependencyOfPointsBackward(relType: string)
    requires Spells(relType, "dependencyof")
    ensures PointsBackward(relType)
  {
  }

  /** The commonest relationship and its inverse, as SPDX writes them. */
  lemma DirectionsOfDependency()
    ensures PointsForward("DEPENDS_ON") && PointsBackward("DEPENDENCY_OF")
  {
    SpellingOfDependsOn();
    SpellingOfDependencyOf();
    DependsOnPointsForward("DEPENDS_ON");
    DependencyOfPointsBackward("DEPENDENCY_OF");
  }

  /** What a document describes does not depend on it, nor it on that. */
  lemma DescribesIsNoDependency(rest: string)
    ensures !PointsForward(['D', 'E', 'S'] + rest) && !PointsBackward(['D', 'E', 'S'] + rest)
  {
    var relType := ['D', 'E', 'S'] + rest;
    assert relType[1..] == ['E', 'S'] + rest && relType[1..][1..] == ['S'] + rest && relType[1..][1..][1..] == rest;
    assert WithoutUnderscores(['S'] + rest) == ['S'] + WithoutUnderscores(rest);
    assert WithoutUnderscores(['E', 'S'] + rest) == ['E'] + (['S'] + WithoutUnderscores(rest));
    assert WithoutUnderscores(relType) == ['D'] + (['E'] + (['S'] + WithoutUnderscores(rest)));
    NoNameOf(ToLower(WithoutUnderscores(relType)));
    DirectionIsSpelled(relType);
  }

  lemma NoNameOf(key: string)
    requires |key| > 2 && key[0] == 'd' && key[1] == 'e' && key[2] == 's'
    ensures key !in ForwardTypes && key !in BackwardTypes
  {
  }

  /** The edges of the walk are the dependencies that the relationships state,
      between two different packages in range. */
  lemma EdgeIsSaid(rel: Relations, n: nat, u: nat, v: nat)
    ensures rel.Edge(n, u, v) <==> u < n && v < n && u != v && exists i: nat :: Says(rel, i, u, v)
  {
    var es := rel.Edges(n);
    forall i: nat | i < |es| ensures es[i] == Some((u, v)) <==> u < n && v < n && u != v && Says(rel, i, u, v) {
      EdgeAtSays(rel, n, i, u, v);
    }
  }

  type Adjacency = map<nat, seq<nat>>

  function Children(adj: Adjacency, u: nat): seq<nat> {
    if u in adj then adj[u] else []
  }

  /** adj lists exactly these edges. */
  ghost predicate Lists(adj: Adjacency, es: Edges) {
    forall u: nat, v: nat :: v in Children(adj, u) <==> Some((u, v)) in es
  }

  ghost predicate Targeted(es: Edges, v: nat) {
    exists u: nat :: Some((u, v)) in es
  }

  /** How many of the edges enter v. */
  ghost function Entering(es: Edges, v: nat): nat {
    if es == [] then 0
    else Entering(es[..|es| - 1], v) + (if es[|es| - 1].Some? && es[|es| - 1].value.1 == v then 1 else 0)
  }

  ghost function EdgeCount(es: Edges): nat {
    if es == [] then 0 else EdgeCount(es[..|es| - 1]) + (if es[|es| - 1].Some? then 1 else 0)
  }

  ghost predicate Counted(counts: seq<nat>, es: Edges) {
    forall v :: 0 <= v < |counts| ==> counts[v] == Entering(es, v)
  }

  function WithEdge(adj: Adjacency, edge: Option<(nat, nat)>): Adjacency {
    if edge.None? then adj else adj[edge.value.0 := Children(adj, edge.value.0) + [edge.value.1]]
  }

  function WithTarget(counts: seq<nat>, edge: Option<(nat, nat)>): seq<nat>
    requires edge.Some? ==> edge.value.1 < |counts|
  {
    if edge.None? then counts else counts[edge.value.1 := counts[edge.value.1] + 1]
  }

  /** The graph as these edges make it. */
  ghost predicate Built(adj: Adjacency, counts: seq<nat>, edges: nat, es: Edges) {
    Lists(adj, es) && Counted(counts, es) && edges == EdgeCount(es) && (edges == 0 ==> adj == map[])
  }

  lemma ListsNext(adj: Adjacency, es: Edges, edge: Option<(nat, nat)>)
    requires Lists(adj, es)
    ensures Lists(WithEdge(adj, edge), es + [edge])
  {
    forall u: nat, v: nat ensures v in Children(WithEdge(adj, edge), u) <==> Some((u, v)) in es + [edge] {
      assert Some((u, v)) in es + [edge] <==> Some((u, v)) in es || edge == Some((u, v));
    }
  }

  lemma BuiltNext(adj: Adjacency, counts: seq<nat>, edges: nat, es: Edges, i: nat)
    requires i < |es| && Built(adj, counts, edges, es[..i]) && (es[i].Some? ==> es[i].value.1 < |counts|)
    ensures Built(WithEdge(adj, es[i]), WithTarget(counts, es[i]), edges + (if es[i].Some? then 1 else 0), es[..i + 1])
  {
    assert es[..i + 1] == es[..i] + [es[i]] && es[..i + 1][..i] == es[..i];
    ListsNext(adj, es[..i], es[i]);
  }

  lemma {:induction false} EnteringTargets(es: Edges, v: nat)
    ensures Entering(es, v) > 0 <==> Targeted(es, v)
  {
    if es != [] {
      var last := es[|es| - 1];
      assert es == es[..|es| - 1] + [last];
      EnteringTargets(es[..|es| - 1], v);
      if last.Some? && last.value.1 == v { assert Some((last.value.0, v)) in es; }
      if u: nat :| Some((u, v)) in es[..|es| - 1] { assert Some((u, v)) in es; }
    }
  }

  lemma ZeroIsUntargeted(counts: seq<nat>, es: Edges)
    requires Counted(counts, es)
    ensures forall v: nat :: v < |counts| ==> (counts[v] == 0 <==> !Targeted(es, v))
  {
    forall v: nat | v < |counts| ensures counts[v] == 0 <==> !Targeted(es, v) { EnteringTargets(es, v); }
  }

  /** Adds what one relationship contributes. */
  method AddEdge(adj0: Adjacency, inDegree: array<nat>, edge: Option<(nat, nat)>) returns (adj: Adjacency)
    requires edge.Some? ==> edge.value.1 < inDegree.Length
    modifies inDegree
    ensures adj == WithEdge(adj0, edge) && inDegree[..] == WithTarget(old(inDegree[..]), edge)
  {
    adj := adj0;
    if edge.Some? {
      var u, v := edge.value.0, edge.value.1;
      adj := adj[u := Children(adj, u) + [v]];
      inDegree[v] := inDegree[v] + 1;
    }
  }

  method BuildGraph(n: nat, rel: Relations) returns (adj: Adjacency, inDegree: array<nat>, edges: nat)
    ensures Lists(adj, rel.Edges(n))
    ensures fresh(inDegree) && inDegree.Length == n && Counted(inDegree[..], rel.Edges(n))
    ensures edges == EdgeCount(rel.Edges(n))
    ensures edges == 0 ==> adj == map[]
  {
    adj := map[];
    inDegree := new nat[n](_ => 0);
    edges := 0;
    ghost var es := rel.Edges(n);
    for i := 0 to rel.Count()
      invariant Built(adj, inDegree[..], edges, es[..i])
    {
      var edge := rel.EdgeAt(n, i);
      assert es[i] == edge;
      BuiltNext(adj, inDegree[..], edges, es, i);
      adj := AddEdge(adj, inDegree, edge);
      if edge.Some? { edges := edges + 1; }
    }
    assert es[..rel.Count()] == es;
  }

  // ---------------------------------------------------------------------
  // Walks
  // ---------------------------------------------------------------------

  /** The packages a walk may start from, with the depth they start at. */
  type Starts = map<nat, nat>

  /** A path along dependency edges from a start to v; it costs the start's
      depth plus one per edge. */
  ghost predicate IsWalk(adj: Adjacency, starts: Starts, p: seq<nat>) {
    && p != [] && p[0] in starts
    && forall i :: 0 <= i < |p| - 1 ==> p[i + 1] in Children(adj, p[i])
  }

  ghost function Cost(starts: Starts, p: seq<nat>): nat
    requires p != [] && p[0] in starts
  {
    starts[p[0]] + |p| - 1
  }

  /** Some walk to v costs this much, counted back from v. */
  ghost predicate Reaches(adj: Adjacency, starts: Starts, v: nat, cost: nat)
    decreases cost
  {
    || (v in starts && starts[v] == cost)
    || (cost > 0 && exists u: nat :: v in Children(adj, u) && Reaches(adj, starts, u, cost - 1))
  }

  lemma {:induction false} WalkReaches(adj: Adjacency, starts: Starts, p: seq<nat>)
    requires IsWalk(adj, starts, p)
    ensures Reaches(adj, starts, p[|p| - 1], Cost(starts, p))
  {
    if |p| > 1 {
      var q := p[..|p| - 1];
      WalkReaches(adj, starts, q);
      assert p[|p| - 1] in Children(adj, q[|q| - 1]);
    }
  }

  lemma {:induction false} ReachesWalk(adj: Adjacency, starts: Starts, v: nat, cost: nat) returns (p: seq<nat>)
    requires Reaches(adj, starts, v, cost)
    ensures IsWalk(adj, starts, p) && p[|p| - 1] == v && Cost(starts, p) == cost
    decreases cost
  {
    if v in starts && starts[v] == cost {
      p := [v];
    } else {
      var u: nat :| v in Children(adj, u) && Reaches(adj, starts, u, cost - 1);
      var q := ReachesWalk(adj, starts, u, cost - 1);
      p := q + [v];
    }
  }

  /** The end and the cost of every walk. */
  ghost function Walks(adj: Adjacency, starts: Starts): iset<(nat, nat)> {
    iset v: nat, c: nat | Reaches(adj, starts, v, c) :: (v, c)
  }

  /** A set of (end, cost) pairs that holds the starts and follows the edges. */
  ghost predicate Closed(adj: Adjacency, starts: Starts, walks: iset<(nat, nat)>) {
    && (forall v: nat :: v in starts ==> (v, starts[v]) in walks)
    && (forall u: nat, c: nat, i :: (u, c) in walks && 0 <= i < |Children(adj, u)| ==> (Children(adj, u)[i], c + 1) in walks)
  }

  lemma WalksAreClosed(adj: Adjacency, starts: Starts, walks: iset<(nat, nat)>)
    requires walks == Walks(adj, starts)
    ensures Closed(adj, starts, walks)
  {
    forall u: nat, c: nat, i | (u, c) in walks && 0 <= i < |Children(adj, u)|
      ensures (Children(adj, u)[i], c + 1) in walks
    {
      assert Children(adj, u)[i] in Children(adj, u);
    }
  }

  // ---------------------------------------------------------------------
  // The breadth-first walk
  // ---------------------------------------------------------------------

  function Indices(n: nat): (r: set<nat>)
    ensures forall v: nat :: v in r <==> v < n
  {
    if n == 0 then {} else Indices(n - 1) + {n - 1}
  }

  /** A package has a depth once it is done or queued; it is queued once. */
  ghost predicate Marks(n: nat, depths: seq<uint16>, done: set<nat>, queue: seq<nat>) {
    && |depths| == n
    && (forall i :: 0 <= i < |queue| ==> queue[i] < n && queue[i] !in done)
    && (forall i, j :: 0 <= i < j < |queue| ==> queue[i] != queue[j])
    && (forall v :: v in done ==> v < n)
    && (forall v: nat :: v < n ==> (depths[v] != Unknown <==> v in done || v in queue))
  }

  /** The queue holds split packages of depth d and then packages of depth d + 1;
      no done package is deeper than d. */
  ghost predicate Level(n: nat, depths: seq<uint16>, done: set<nat>, queue: seq<nat>, d: int, split: nat)
    requires Marks(n, depths, done, queue)
  {
    && split <= |queue|
    && (forall i :: 0 <= i < split ==> depths[queue[i]] as int == d)
    && (forall i :: split <= i < |queue| ==> depths[queue[i]] as int == d + 1)
    && (forall u :: u in done ==> depths[u] as int <= d)
  }

  /** Every depth given so far is the cost of a walk, and starts have theirs. */
  ghost predicate Sound(n: nat, starts: Starts, walks: iset<(nat, nat)>, depths: seq<uint16>) {
    && |depths| == n
    && (forall v: nat :: v < n && depths[v] != Unknown ==> (v, depths[v] as nat) in walks)
    && (forall v: nat :: v in starts ==> v < n && depths[v] as nat <= starts[v])
  }

  /** The edges out of u are relaxed. */
  ghost predicate Expanded(adj: Adjacency, depths: seq<uint16>, u: nat) {
    u < |depths| && depths[u] < 65534 ==>
      forall i :: 0 <= i < |Children(adj, u)| && Children(adj, u)[i] < |depths| ==>
        depths[Children(adj, u)[i]] as int <= depths[u] as int + 1
  }

  predicate BothBelow(u: nat, v: nat, n: nat) { u < n && v < n }

  ghost predicate InRange(adj: Adjacency, n: nat) {
    forall u: nat, i :: 0 <= i < |Children(adj, u)| ==> BothBelow(u, Children(adj, u)[i], n)
  }

  /** No walk is shorter than the depth assigned to its end. */
  lemma {:induction false} ShortestWalk(n: nat, adj: Adjacency, starts: Starts, walks: iset<(nat, nat)>,
                                        depths: seq<uint16>, v: nat, cost: nat)
    requires InRange(adj, n) && Sound(n, starts, walks, depths)
    requires forall u: nat :: u < n && depths[u] != Unknown ==> Expanded(adj, depths, u)
    requires v < n && Reaches(adj, starts, v, cost)
    ensures depths[v] as nat <= cost
    decreases cost
  {
    if !(v in starts && starts[v] == cost) {
      var u: nat :| v in Children(adj, u) && Reaches(adj, starts, u, cost - 1);
      var i :| 0 <= i < |Children(adj, u)| && Children(adj, u)[i] == v;
      ShortestWalk(n, adj, starts, walks, depths, u, cost - 1);
    }
  }

  lemma Dequeue(n: nat, depths: seq<uint16>, done: set<nat>, queue: seq<nat>, d: int, split: nat)
    requires Marks(n, depths, done, queue) && Level(n, depths, done, queue, d, split) && split > 0
    ensures Marks(n, depths, done + {queue[0]}, queue[1..])
    ensures Level(n, depths, done + {queue[0]}, queue[1..], d, split - 1)
  {
    assert queue == [queue[0]] + queue[1..];
  }

  /** Depths are only filled in, never changed. */
  ghost predicate Fills(before: seq<uint16>, after: seq<uint16>) {
    && |before| == |after|
    && forall v :: 0 <= v < |before| ==> after[v] == before[v] || before[v] == Unknown
  }

  ghost predicate Front(n: nat, starts: Starts, walks: iset<(nat, nat)>, depths: seq<uint16>, done: set<nat>, queue: seq<nat>,
                        d: int, split: nat) {
    && Sound(n, starts, walks, depths)
    && Marks(n, depths, done, queue)
    && Level(n, depths, done, queue, d, split)
  }

  lemma Enqueue(n: nat, depths: seq<uint16>, done: set<nat>, queue: seq<nat>, d: int, split: nat, v: nat, next: uint16)
    requires Marks(n, depths, done, queue) && Level(n, depths, done, queue, d, split)
    requires v < n && depths[v] == Unknown && next as int == d + 1 && next != Unknown
    ensures Marks(n, depths[v := next], done, queue + [v])
    ensures Level(n, depths[v := next], done, queue + [v], d, split)
    ensures Fills(depths, depths[v := next])
  {
    assert v !in queue;
  }

  lemma Discover(n: nat, adj: Adjacency, starts: Starts, walks: iset<(nat, nat)>, depths: seq<uint16>, done: set<nat>,
                 queue: seq<nat>, d: int, split: nat, cur: nat, child: nat, next: uint16)
    requires Front(n, starts, walks, depths, done, queue, d, split)
    requires Closed(adj, starts, walks)
    requires cur in done && depths[cur] as int == d && child in Children(adj, cur)
    requires child < n && depths[child] == Unknown && next as int == d + 1 && next != Unknown
    ensures Front(n, starts, walks, depths[child := next], done, queue + [child], d, split)
  {
    Enqueue(n, depths, done, queue, d, split, child, next);
    var i :| 0 <= i < |Children(adj, cur)| && Children(adj, cur)[i] == child;
    assert (cur, depths[cur] as nat) in walks;
  }

  /** Visits the children of cur: unknown ones get the next depth and a place in
      the queue. */
  method Expand(n: nat, adj: Adjacency, ghost starts: Starts, ghost walks: iset<(nat, nat)>, depths: array<uint16>,
                ghost done: set<nat>, queue0: seq<nat>, cur: nat, ghost d: int, ghost split: nat)
    returns (queue: seq<nat>)
    requires InRange(adj, n) && Closed(adj, starts, walks) && Front(n, starts, walks, depths[..], done, queue0, d, split)
    requires cur in done && depths[cur] as int == d < 65534
    modifies depths
    ensures Front(n, starts, walks, depths[..], done, queue, d, split)
    ensures Expanded(adj, depths[..], cur)
    ensures Fills(old(depths[..]), depths[..])
  {
    var next := depths[cur] + 1;
    var children := Children(adj, cur);
    queue := queue0;
    ghost var before := depths[..];
    ghost var now := before;
    for k := 0 to |children|
      invariant now == depths[..] && Front(n, starts, walks, now, done, queue, d, split)
      invariant Fills(before, now) && now[cur] == before[cur]
      invariant forall i :: 0 <= i < k ==> now[children[i]] <= next
    {
      var child := children[k];
      if depths[child] == Unknown {
        Discover(n, adj, starts, walks, now, done, queue, d, split, cur, child, next);
        depths[child] := next;
        now := now[child := next];
        queue := queue + [child];
      } else {
      }
    }
  }

  method Walk(n: nat, adj: Adjacency, ghost starts: Starts, ghost walks: iset<(nat, nat)>, depths: array<uint16>,
              queue0: seq<nat>, ghost d0: int, ghost split0: nat)
    requires InRange(adj, n) && Closed(adj, starts, walks) && Front(n, starts, walks, depths[..], {}, queue0, d0, split0)
    modifies depths
    ensures forall v: nat :: v < n && depths[v] != Unknown ==> (v, depths[v] as nat) in walks
    ensures forall v: nat, c: nat :: v < n && Reaches(adj, starts, v, c) ==> depths[v] as nat <= c
  {
    var queue := queue0;
    ghost var done: set<nat> := {};
    ghost var d: int := d0;
    ghost var split: nat := split0;
    ghost var now := depths[..];
    while |queue| > 0
      invariant now == depths[..] && Front(n, starts, walks, now, done, queue, d, split)
      invariant forall u :: u in done ==> Expanded(adj, now, u)
      decreases Indices(n) - done
    {
      if split == 0 { d, split := d + 1, |queue|; }
      var cur := queue[0];
      ghost var before := now;
      ghost var settled := done;
      Dequeue(n, now, done, queue, d, split);
      done, queue, split := done + {cur}, queue[1..], split - 1;
      if depths[cur] + 1 != Unknown {
        queue := Expand(n, adj, starts, walks, depths, done, queue, cur, d, split);
        now := depths[..];
        forall u | u in settled ensures Expanded(adj, now, u) {
        }
      }
    }
    forall v: nat, c: nat | v < n && Reaches(adj, starts, v, c) ensures depths[v] as nat <= c {
      ShortestWalk(n, adj, starts, walks, now, v, c);
    }
  }

  // ---------------------------------------------------------------------
  // Where the walk starts
  // ---------------------------------------------------------------------

  /** Roots in range start at 0, the other direct seeds in range at 1. */
  ghost function Given(n: nat, roots: seq<nat>, seeds: seq<nat>): Starts {
    map v: nat | v in Indices(n) && (v in roots || v in seeds) :: if v in roots then 0 else 1
  }

  /** A package others are reached from but that nothing depends on. */
  ghost predicate Source(rel: Relations, n: nat, v: nat) {
    && v < n
    && (exists w: nat :: rel.Edge(n, v, w))
    && !exists u: nat :: rel.Edge(n, u, v)
  }

  /** Without roots and seeds the only source, if there is exactly one, is the root. */
  ghost predicate IsStarts(rel: Relations, n: nat, roots: seq<nat>, seeds: seq<nat>, starts: Starts) {
    if Given(n, roots, seeds) != map[] then starts == Given(n, roots, seeds)
    else if exists v: nat :: Source(rel, n, v) && forall w: nat :: Source(rel, n, w) ==> w == v then
      exists v: nat :: starts == map[v := 0] && Source(rel, n, v) && forall w: nat :: Source(rel, n, w) ==> w == v
    else starts == map[]
  }

  /** Marks the roots and seeds; the queue holds them, roots first. */
  method Seed(n: nat, roots: seq<nat>, seeds: seq<nat>, depths: array<uint16>)
    returns (queue: seq<nat>, ghost split: nat)
    requires depths.Length == n && forall v: nat :: v < n ==> depths[v] == Unknown
    modifies depths
    ensures Marks(n, depths[..], {}, queue) && Level(n, depths[..], {}, queue, 0, split)
    ensures forall v: nat :: v in queue <==> v in Given(n, roots, seeds)
    ensures forall v: nat :: v in queue ==> depths[v] as nat == Given(n, roots, seeds)[v]
  {
    queue := [];
    ghost var now := depths[..];
    for i := 0 to |roots|
      invariant now == depths[..]
      invariant Marks(n, now, {}, queue) && Level(n, now, {}, queue, 0, |queue|)
      invariant forall v: nat :: v in queue <==> v < n && v in roots[..i]
    {
      var r := roots[i];
      if r < n && depths[r] == Unknown {
        assert r !in queue;
        depths[r] := 0;
        queue := queue + [r];
        now := now[r := 0];
      }
    }
    split := |queue|;
    assert roots[..|roots|] == roots;
    for i := 0 to |seeds|
      invariant now == depths[..]
      invariant Marks(n, now, {}, queue) && Level(n, now, {}, queue, 0, split)
      invariant forall v: nat :: v in queue <==> v < n && (v in roots || v in seeds[..i])
      invariant forall v: nat :: v in queue ==> now[v] == if v in roots then 0 else 1
    {
      var s := seeds[i];
      if s < n && depths[s] == Unknown {
        Enqueue(n, now, {}, queue, 0, split, s, 1);
        assert s !in queue;
        depths[s] := 1;
        queue := queue + [s];
        now := now[s := 1];
      }
    }
    assert seeds[..|seeds|] == seeds;
  }

  predicate Candidate(adj: Adjacency, inDegree: seq<nat>, v: nat) {
    v < |inDegree| && inDegree[v] == 0 && Children(adj, v) != []
  }

  /** The only package without incoming but with outgoing edges, if there is
      just one. */
  method InferRoot(n: nat, adj: Adjacency, inDegree: array<nat>) returns (candidate: Option<nat>)
    requires inDegree.Length == n
    ensures candidate.Some? ==> forall v: nat :: Candidate(adj, inDegree[..], v) <==> v == candidate.value
    ensures candidate.None? ==> || (forall v: nat :: !Candidate(adj, inDegree[..], v))
                                || (exists v: nat, w: nat :: v != w && Candidate(adj, inDegree[..], v) && Candidate(adj, inDegree[..], w))
  {
    candidate := None;
    for i := 0 to n
      invariant candidate.None? ==> forall v: nat :: v < i ==> !Candidate(adj, inDegree[..], v)
      invariant candidate.Some? ==> forall v: nat :: v < i ==> (Candidate(adj, inDegree[..], v) <==> v == candidate.value)
      invariant candidate.Some? ==> candidate.value < i
    {
      if inDegree[i] == 0 && Children(adj, i) != [] {
        if candidate.Some? {
          assert Candidate(adj, inDegree[..], i) && Candidate(adj, inDegree[..], candidate.value);
          return None;
        }
        candidate := Some(i);
      }
    }
  }

  lemma ListsEdges(adj: Adjacency, rel: Relations, n: nat)
    requires Lists(adj, rel.Edges(n))
    ensures forall u: nat, v: nat :: v in Children(adj, u) <==> rel.Edge(n, u, v)
    ensures InRange(adj, n)
  {
    forall u: nat, i | 0 <= i < |Children(adj, u)| ensures BothBelow(u, Children(adj, u)[i], n) {
      assert Children(adj, u)[i] in Children(adj, u);
    }
  }

  lemma CandidateIsSource(adj: Adjacency, rel: Relations, n: nat, inDegree: seq<nat>, v: nat)
    requires Lists(adj, rel.Edges(n)) && |inDegree| == n && Counted(inDegree, rel.Edges(n))
    ensures Candidate(adj, inDegree, v) <==> Source(rel, n, v)
  {
    ListsEdges(adj, rel, n);
    ZeroIsUntargeted(inDegree, rel.Edges(n));
    if Children(adj, v) != [] { assert Children(adj, v)[0] in Children(adj, v); }
  }

  /** Where the walk starts: the depths marked so far and the queue. */
  method Start(n: nat, rel: Relations, adj: Adjacency, inDegree: array<nat>, edges: nat,
               roots: seq<nat>, seeds: seq<nat>, depths: array<uint16>)
    returns (queue: seq<nat>, ghost starts: Starts, ghost split: nat)
    requires Lists(adj, rel.Edges(n)) && inDegree.Length == n && Counted(inDegree[..], rel.Edges(n))
    requires edges == 0 ==> adj == map[]
    requires depths.Length == n && forall v: nat :: v < n ==> depths[v] == Unknown
    modifies depths
    ensures IsStarts(rel, n, roots, seeds, starts)
    ensures Marks(n, depths[..], {}, queue) && Level(n, depths[..], {}, queue, 0, split)
    ensures forall v: nat :: v in queue <==> v in starts
    ensures forall v: nat :: v in starts ==> v < n && depths[v] as nat == starts[v]
  {
    queue, split := Seed(n, roots, seeds, depths);
    starts := Given(n, roots, seeds);
    if |queue| > 0 {
      assert queue[0] in starts;
      return;
    }
    assert starts == map[];
    ghost var degrees := inDegree[..];
    forall v: nat ensures Candidate(adj, degrees, v) <==> Source(rel, n, v) {
      CandidateIsSource(adj, rel, n, degrees, v);
    }
    if edges == 0 { return; }
    var candidate := InferRoot(n, adj, inDegree);
    assert inDegree[..] == degrees;
    if candidate.None? { return; }
    var root := candidate.value;
    assert Candidate(adj, degrees, root);
    depths[root] := 0;
    queue, starts, split := [root], map[root := 0], 1;
  }

  /** What the depths mean relationship by relationship: a dependency is at most
      one deeper than what depends on it, roots are at 0 and direct seeds at most
      at 1, and every other known depth comes from some such dependency. */
  ghost predicate DepthsExplained(n: nat, rel: Relations, roots: seq<nat>, seeds: seq<nat>, depths: seq<uint16>) {
    && |depths| == n
    && (forall i: nat, u: nat, v: nat :: Says(rel, i, u, v) && u < n && v < n ==> depths[v] as int <= depths[u] as int + 1)
    && (forall v: nat :: v < n && v in roots ==> depths[v] == 0)
    && (forall v: nat :: v < n && v in seeds ==> depths[v] <= 1)
    && (forall v: nat :: v < n && depths[v] == 0 && v !in roots ==>
          Source(rel, n, v) && forall w: nat :: w in roots || w in seeds ==> w >= n)
    && (forall v: nat :: v < n && 0 < depths[v] < 65535 ==>
          (v in seeds && depths[v] == 1) || StepFrom(n, rel, depths, v))
  }

  /** Some dependant of v is one above it. */
  ghost predicate StepFrom(n: nat, rel: Relations, depths: seq<uint16>, v: nat)
    requires v < n == |depths|
  {
    exists i: nat, u: nat :: Says(rel, i, u, v) && u < n && depths[v] as int == depths[u] as int + 1
  }

  /** The depths are the costs of cheapest walks over the edges of rel. */
  ghost predicate Cheapest(n: nat, rel: Relations, adj: Adjacency, starts: Starts, depths: seq<uint16>) {
    && |depths| == n
    && (forall u: nat, v: nat :: v in Children(adj, u) <==> rel.Edge(n, u, v))
    && (forall v: nat :: v < n && depths[v] != Unknown ==> Reaches(adj, starts, v, depths[v] as nat))
    && (forall v: nat, c: nat :: v < n && Reaches(adj, starts, v, c) ==> depths[v] as nat <= c)
  }

  lemma DependencyIsNear(n: nat, rel: Relations, adj: Adjacency, starts: Starts, depths: seq<uint16>, i: nat, u: nat, v: nat)
    requires Cheapest(n, rel, adj, starts, depths) && u < n && v < n && Says(rel, i, u, v)
    ensures depths[v] as int <= depths[u] as int + 1
  {
    if u != v && depths[u] != Unknown {
      EdgeIsSaid(rel, n, u, v);
      assert Reaches(adj, starts, v, depths[u] as nat + 1);
    }
  }

  lemma DepthIsFromDependant(n: nat, rel: Relations, adj: Adjacency, starts: Starts, depths: seq<uint16>, v: nat)
    requires Cheapest(n, rel, adj, starts, depths) && v < n && depths[v] != Unknown
    requires !(v in starts && starts[v] == depths[v] as nat)
    ensures StepFrom(n, rel, depths, v)
  {
    var u := LastStep(adj, starts, v, depths[v] as nat);
    EdgeIsSaid(rel, n, u, v);
    var i: nat :| Says(rel, i, u, v);
    DependencyIsNear(n, rel, adj, starts, depths, i, u, v);
  }

  lemma LastStep(adj: Adjacency, starts: Starts, v: nat, cost: nat) returns (u: nat)
    requires Reaches(adj, starts, v, cost) && !(v in starts && starts[v] == cost)
    ensures cost > 0 && v in Children(adj, u) && Reaches(adj, starts, u, cost - 1)
  {
    u :| v in Children(adj, u) && Reaches(adj, starts, u, cost - 1);
  }

  lemma StartsExplained(n: nat, rel: Relations, roots: seq<nat>, seeds: seq<nat>, adj: Adjacency, starts: Starts, depths: seq<uint16>)
    requires Cheapest(n, rel, adj, starts, depths) && IsStarts(rel, n, roots, seeds, starts)
    ensures forall v: nat :: v < n && v in roots ==> depths[v] == 0
    ensures forall v: nat :: v < n && v in seeds ==> depths[v] <= 1
    ensures forall v: nat :: v < n && depths[v] == 0 && v !in roots ==>
              Source(rel, n, v) && forall w: nat :: w in roots || w in seeds ==> w >= n
  {
    forall v: nat | v < n && (v in roots || v in seeds) ensures if v in roots then depths[v] == 0 else depths[v] <= 1 {
      assert v in Given(n, roots, seeds);
      assert Reaches(adj, starts, v, starts[v]);
    }
    forall v: nat | v < n && depths[v] == 0 && v !in roots
      ensures Source(rel, n, v) && forall w: nat :: w in roots || w in seeds ==> w >= n
    {
      ReachedAtZero(adj, starts, v);
      OtherRoot(n, rel, roots, seeds, starts, v);
    }
  }

  lemma ReachedAtZero(adj: Adjacency, starts: Starts, v: nat)
    requires Reaches(adj, starts, v, 0)
    ensures v in starts && starts[v] == 0
  {
  }

  /** A root that was not given is the only source, and none in range was given. */
  lemma OtherRoot(n: nat, rel: Relations, roots: seq<nat>, seeds: seq<nat>, starts: Starts, v: nat)
    requires IsStarts(rel, n, roots, seeds, starts) && v in starts && starts[v] == 0 && v !in roots
    ensures Source(rel, n, v) && forall w: nat :: w in roots || w in seeds ==> w >= n
  {
    forall w: nat | w in roots || w in seeds ensures w >= n { assert w in Given(n, roots, seeds) <==> w < n; }
  }

  lemma CheapestExplained(n: nat, rel: Relations, roots: seq<nat>, seeds: seq<nat>, adj: Adjacency, starts: Starts, depths: seq<uint16>)
    requires Cheapest(n, rel, adj, starts, depths) && IsStarts(rel, n, roots, seeds, starts)
    ensures DepthsExplained(n, rel, roots, seeds, depths)
  {
    StartsExplained(n, rel, roots, seeds, adj, starts, depths);
    forall i: nat, u: nat, v: nat | Says(rel, i, u, v) && u < n && v < n ensures depths[v] as int <= depths[u] as int + 1 {
      DependencyIsNear(n, rel, adj, starts, depths, i, u, v);
    }
    forall v: nat | v < n && 0 < depths[v] < 65535 ensures (v in seeds && depths[v] == 1) || StepFrom(n, rel, depths, v) {
      if v in starts && starts[v] == depths[v] as nat {
      } else {
        DepthIsFromDependant(n, rel, adj, starts, depths, v);
      }
    }
  }

  lemma StartsAreFront(n: nat, starts: Starts, walks: iset<(nat, nat)>, depths: seq<uint16>, queue: seq<nat>, split: nat)
    requires Marks(n, depths, {}, queue) && Level(n, depths, {}, queue, 0, split)
    requires forall v: nat :: v in queue <==> v in starts
    requires forall v: nat :: v in starts ==> v < n && depths[v] as nat == starts[v] && (v, starts[v]) in walks
    ensures Front(n, starts, walks, depths, {}, queue, 0, split)
  {
  }

  /** Every package gets the cost of its cheapest walk from a root, a seed or
      the inferred root; Unknown when there is none below 65535. */
  method Compute(n: nat, rel: Relations, roots: seq<nat>, seeds: seq<nat>)
    returns (depths: array<uint16>, ghost adj: Adjacency, ghost starts: Starts)
    ensures depths.Length == n
    ensures IsStarts(rel, n, roots, seeds, starts) && Cheapest(n, rel, adj, starts, depths[..])
    ensures DepthsExplained(n, rel, roots, seeds, depths[..])
  {
    depths := new uint16[n](_ => Unknown);
    var graph, inDegree, edges := BuildGraph(n, rel);
    adj := graph;
    ListsEdges(adj, rel, n);
    var queue, s, split := Start(n, rel, graph, inDegree, edges, roots, seeds, depths);
    starts := s;
    ghost var walks := Walks(adj, starts);
    WalksAreClosed(adj, starts, walks);
    StartsAreFront(n, starts, walks, depths[..], queue, split);
    Walk(n, graph, starts, walks, depths, queue, 0, split);
    CheapestExplained(n, rel, roots, seeds, adj, starts, depths[..]);
  }

  /** The depth of v answers for every walk: it is the cost of the cheapest one
      when that is at most 65534, and Unknown otherwise. */
  lemma DepthIsShortest(adj: Adjacency, starts: Starts, v: nat, depth: uint16)
    requires depth != Unknown ==> Reaches(adj, starts, v, depth as nat)
    requires forall k: nat :: Reaches(adj, starts, v, k) ==> depth as nat <= k
    ensures depth != Unknown ==> exists p :: IsWalk(adj, starts, p) && p[|p| - 1] == v && Cost(starts, p) == depth as nat
    ensures forall p :: IsWalk(adj, starts, p) && p[|p| - 1] == v ==> Cost(starts, p) >= depth as nat
  {
    if depth != Unknown {
      var p := ReachesWalk(adj, starts, v, depth as nat);
    }
    forall p | IsWalk(adj, starts, p) && p[|p| - 1] == v ensures Cost(starts, p) >= depth as nat {
      WalkReaches(adj, starts, p);
    }
  }

  /** The nearest place a package URL is pulled in from. */
  method MinDepthForPurl(purls: seq<string>, depths: seq<uint16>, purl: string) returns (best: uint16)
    ensures forall i :: 0 <= i < |purls| && purls[i] == purl && i < |depths| ==> best <= depths[i]
    ensures best == Unknown || exists i :: 0 <= i < |purls| && purls[i] == purl && i < |depths| && depths[i] == best
  {
    best := Unknown;
    for i := 0 to |purls|
      invariant forall k :: 0 <= k < i && purls[k] == purl && k < |depths| ==> best <= depths[k]
      invariant best == Unknown || exists k :: 0 <= k < i && purls[k] == purl && k < |depths| && depths[k] == best
    {
      if purls[i] == purl {
        var d := if i < |depths| then depths[i] else Unknown;
        if d < best { best := d; }
      }
    }
  }
}
