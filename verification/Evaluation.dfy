/** Folding a license expression into one category
    (internal/license/expression.go and checker.go). */
module Evaluation {
  import opened Text
  import opened Expression

  datatype Category = Permissive | Unknown | Unapproved | Copyleft

  datatype Mode = Strict | PermissiveWins | Off

  /** From best to worst for folding. */
  function Severity(c: Category): nat {
    match c
    case Permissive => 0
    case Unknown => 1
    case Unapproved => 2
    case Copyleft => 3
  }

  // ---------------------------------------------------------------------
  // Combining operands
  // ---------------------------------------------------------------------

  function BestOf(best: Category, cats: seq<Category>): Category
    decreases cats
  {
    if cats == [] then best
    else BestOf(if Severity(cats[0]) < Severity(best) then cats[0] else best, cats[1..])
  }

  function WorstOf(worst: Category, cats: seq<Category>): Category
    decreases cats
  {
    if cats == [] then worst
    else WorstOf(if Severity(cats[0]) > Severity(worst) then cats[0] else worst, cats[1..])
  }

  /** The OR rule: the least severe operand wins. */
  method CombineChoice(cats: seq<Category>) returns (best: Category)
    requires |cats| > 0
    ensures best == BestOf(cats[0], cats[1..])
    ensures best in cats && forall c :: c in cats ==> Severity(best) <= Severity(c)
    ensures best == if Permissive in cats then Permissive else if Unknown in cats then Unknown
                    else if Unapproved in cats then Unapproved else Copyleft
  {
    best := cats[0];
    for i := 1 to |cats|
      invariant BestOf(best, cats[i..]) == BestOf(cats[0], cats[1..])
      invariant best in cats[..i] && forall k :: 0 <= k < i ==> Severity(best) <= Severity(cats[k])
    {
      assert cats[i..] == [cats[i]] + cats[i + 1..];
      if Severity(cats[i]) < Severity(best) { best := cats[i]; }
    }
  }

  /** The strict AND rule: the most severe operand wins. */
  method CombineConjunction(cats: seq<Category>) returns (worst: Category)
    requires |cats| > 0
    ensures worst == WorstOf(cats[0], cats[1..])
    ensures worst in cats && forall c :: c in cats ==> Severity(c) <= Severity(worst)
    ensures worst == if Copyleft in cats then Copyleft else if Unapproved in cats then Unapproved
                     else if Unknown in cats then Unknown else Permissive
  {
    worst := cats[0];
    for i := 1 to |cats|
      invariant WorstOf(worst, cats[i..]) == WorstOf(cats[0], cats[1..])
      invariant worst in cats[..i] && forall k :: 0 <= k < i ==> Severity(cats[k]) <= Severity(worst)
    {
      assert cats[i..] == [cats[i]] + cats[i + 1..];
      if Severity(cats[i]) > Severity(worst) { worst := cats[i]; }
    }
  }

  lemma {:induction false} BestIsLeast(best: Category, cats: seq<Category>)
    ensures BestOf(best, cats) == best || BestOf(best, cats) in cats
    ensures Severity(BestOf(best, cats)) <= Severity(best)
    ensures forall c :: c in cats ==> Severity(BestOf(best, cats)) <= Severity(c)
    decreases cats
  {
    if cats != [] {
      BestIsLeast(if Severity(cats[0]) < Severity(best) then cats[0] else best, cats[1..]);
      assert forall c :: c in cats ==> c == cats[0] || c in cats[1..];
    }
  }

  lemma {:induction false} WorstIsGreatest(worst: Category, cats: seq<Category>)
    ensures WorstOf(worst, cats) == worst || WorstOf(worst, cats) in cats
    ensures Severity(WorstOf(worst, cats)) >= Severity(worst)
    ensures forall c :: c in cats ==> Severity(WorstOf(worst, cats)) >= Severity(c)
    decreases cats
  {
    if cats != [] {
      WorstIsGreatest(if Severity(cats[0]) > Severity(worst) then cats[0] else worst, cats[1..]);
      assert forall c :: c in cats ==> c == cats[0] || c in cats[1..];
    }
  }

  // ---------------------------------------------------------------------
  // Leaves
  // ---------------------------------------------------------------------

  /** Placeholders for "no license information". */
  predicate IsNoLicenseInfo(id: string) {
    ToUpper(TrimSpace(id)) in {"", "NOASSERTION", "NONE", "UNKNOWN"}
  }

  function LookupDeprecated(id: string, lookup: string -> Category): Category {
    match Before(id, "-with-")
    case Some(base) =>
      if lookup(base) != Unknown then lookup(base) else lookup(base + "-only")
    case None => lookup(id + "-only")
  }

  function ResolveLeaf(id: string, lookup: string -> Category): Category {
    if lookup(id) != Unknown then lookup(id)
    else match Before(id, " WITH ")
      case Some(base) => lookup(base)
      case None =>
        if HasSuffix(id, "+") then
          var base := id[..|id| - 1];
          if lookup(base + "-or-later") != Unknown then lookup(base + "-or-later") else lookup(base)
        else LookupDeprecated(id, lookup)
  }

  /** A license the policy does not list is unapproved; only a missing license
      stays unknown. */
  function LookupLeaf(id: string, lookup: string -> Category): Category {
    var cat := ResolveLeaf(id, lookup);
    if cat != Unknown then cat
    else if IsNoLicenseInfo(id) then Unknown
    else Unapproved
  }

  // ---------------------------------------------------------------------
  // Evaluation
  // ---------------------------------------------------------------------

  function LeafIds(n: Expr): seq<string> {
    match n
    case Leaf(id) => [id]
    case AndNode(kids) => LeafIdsAll(kids)
    case OrNode(kids) => LeafIdsAll(kids)
  }

  function LeafIdsAll(kids: seq<Expr>): seq<string> {
    if kids == [] then [] else LeafIds(kids[0]) + LeafIdsAll(kids[1..])
  }

  function Evaluate(n: Expr, mode: Mode, lookup: string -> Category): Category
    requires WellBuilt(n)
  {
    match n
    case Leaf(id) => LookupLeaf(id, lookup)
    case AndNode(kids) =>
      var cats := EvaluateAll(kids, mode, lookup);
      if mode == PermissiveWins then BestOf(cats[0], cats[1..]) else WorstOf(cats[0], cats[1..])
    case OrNode(kids) =>
      var cats := EvaluateAll(kids, mode, lookup);
      BestOf(cats[0], cats[1..])
  }

  function EvaluateAll(kids: seq<Expr>, mode: Mode, lookup: string -> Category): (cats: seq<Category>)
    requires forall k :: k in kids ==> WellBuilt(k)
    ensures |cats| == |kids|
    ensures forall i :: 0 <= i < |kids| ==> cats[i] == Evaluate(kids[i], mode, lookup)
  {
    if kids == [] then []
    else [Evaluate(kids[0], mode, lookup)] + EvaluateAll(kids[1..], mode, lookup)
  }

  // ---------------------------------------------------------------------
  // What evaluation means
  // ---------------------------------------------------------------------

  /** The expression read as an AND/OR formula over its leaves. */
  ghost predicate Satisfied(n: Expr, leaf: string -> bool) {
    match n
    case Leaf(id) => leaf(id)
    case AndNode(kids) => forall k :: k in kids ==> Satisfied(k, leaf)
    case OrNode(kids) => exists k :: k in kids && Satisfied(k, leaf)
  }

  ghost function AtMostSevere(limit: int, lookup: string -> Category): string -> bool {
    id => Severity(LookupLeaf(id, lookup)) <= limit
  }

  lemma BestBelow(cats: seq<Category>, limit: int)
    requires |cats| > 0
    ensures Severity(BestOf(cats[0], cats[1..])) <= limit <==> exists i :: 0 <= i < |cats| && Severity(cats[i]) <= limit
  {
    BestIsLeast(cats[0], cats[1..]);
    assert cats == [cats[0]] + cats[1..];
    assert forall i :: 0 <= i < |cats| ==> cats[i] == cats[0] || cats[i] in cats[1..];
    assert BestOf(cats[0], cats[1..]) in cats;
  }

  lemma WorstBelow(cats: seq<Category>, limit: int)
    requires |cats| > 0
    ensures Severity(WorstOf(cats[0], cats[1..])) <= limit <==> forall i :: 0 <= i < |cats| ==> Severity(cats[i]) <= limit
  {
    WorstIsGreatest(cats[0], cats[1..]);
    assert cats == [cats[0]] + cats[1..];
    assert forall i :: 0 <= i < |cats| ==> cats[i] == cats[0] || cats[i] in cats[1..];
    assert WorstOf(cats[0], cats[1..]) in cats;
  }

  /** Strict evaluation is the boolean reading of the expression at every
      severity threshold. */
  lemma {:induction false} StrictIsBoolean(n: Expr, lookup: string -> Category, limit: int)
    requires WellBuilt(n)
    ensures Severity(Evaluate(n, Strict, lookup)) <= limit <==> Satisfied(n, AtMostSevere(limit, lookup))
  {
    if !n.Leaf? {
      var kids := n.children;
      var cats := EvaluateAll(kids, Strict, lookup);
      forall i | 0 <= i < |kids|
        ensures Severity(cats[i]) <= limit <==> Satisfied(kids[i], AtMostSevere(limit, lookup))
      {
        StrictIsBoolean(kids[i], lookup, limit);
      }
      if n.AndNode? { WorstBelow(cats, limit); } else { BestBelow(cats, limit); }
    }
  }

  /** Under permissive-wins some leaf decides, and it is a least severe one. */
  lemma {:induction false} PermissiveWinsIsMinimum(n: Expr, lookup: string -> Category, limit: int)
    requires WellBuilt(n)
    ensures Severity(Evaluate(n, PermissiveWins, lookup)) <= limit <==>
            exists id :: id in LeafIds(n) && Severity(LookupLeaf(id, lookup)) <= limit
  {
    if n.Leaf? {
      assert n.id in LeafIds(n);
    } else {
      var kids := n.children;
      var cats := EvaluateAll(kids, PermissiveWins, lookup);
      forall i | 0 <= i < |kids|
        ensures Severity(cats[i]) <= limit <==>
                exists id :: id in LeafIds(kids[i]) && Severity(LookupLeaf(id, lookup)) <= limit
      {
        PermissiveWinsIsMinimum(kids[i], lookup, limit);
      }
      BestBelow(cats, limit);
      LeafIdsOfKids(kids);
    }
  }

  lemma {:induction false} LeafIdsOfKids(kids: seq<Expr>)
    ensures forall id :: id in LeafIdsAll(kids) <==> exists i :: 0 <= i < |kids| && id in LeafIds(kids[i])
  {
    if kids != [] {
      LeafIdsOfKids(kids[1..]);
      assert forall i :: 0 < i < |kids| ==> kids[i] == kids[1..][i - 1];
      assert forall i :: 0 <= i < |kids| - 1 ==> kids[1..][i] == kids[i + 1];
    }
  }

  /** Permissive-wins never reports a worse category than strict. */
  lemma {:induction false} PermissiveWinsBelowStrict(n: Expr, lookup: string -> Category)
    requires WellBuilt(n)
    ensures Severity(Evaluate(n, PermissiveWins, lookup)) <= Severity(Evaluate(n, Strict, lookup))
  {
    if !n.Leaf? {
      var kids := n.children;
      var wins, strict := EvaluateAll(kids, PermissiveWins, lookup), EvaluateAll(kids, Strict, lookup);
      forall i | 0 <= i < |kids| ensures Severity(wins[i]) <= Severity(strict[i]) {
        PermissiveWinsBelowStrict(kids[i], lookup);
      }
      var s := Severity(Evaluate(n, Strict, lookup));
      BestBelow(wins, s);
      if n.AndNode? {
        WorstBelow(strict, s);
        assert Severity(wins[0]) <= s;
      } else {
        BestBelow(strict, s);
      }
    }
  }

  lemma CombineMonotone(a: seq<Category>, b: seq<Category>)
    requires |a| == |b| > 0
    requires forall i :: 0 <= i < |a| ==> Severity(a[i]) <= Severity(b[i])
    ensures Severity(BestOf(a[0], a[1..])) <= Severity(BestOf(b[0], b[1..]))
    ensures Severity(WorstOf(a[0], a[1..])) <= Severity(WorstOf(b[0], b[1..]))
  {
    BestBelow(a, Severity(BestOf(b[0], b[1..])));
    BestBelow(b, Severity(BestOf(b[0], b[1..])));
    WorstBelow(a, Severity(WorstOf(b[0], b[1..])));
    WorstBelow(b, Severity(WorstOf(b[0], b[1..])));
  }

  /** Making leaves more severe never makes the result less severe. */
  lemma {:induction false} EvaluateMonotone(n: Expr, mode: Mode, lo: string -> Category, hi: string -> Category)
    requires WellBuilt(n)
    requires forall id :: id in LeafIds(n) ==> Severity(LookupLeaf(id, lo)) <= Severity(LookupLeaf(id, hi))
    ensures Severity(Evaluate(n, mode, lo)) <= Severity(Evaluate(n, mode, hi))
  {
    if n.Leaf? {
      assert n.id in LeafIds(n);
    } else {
      var kids := n.children;
      LeafIdsOfKids(kids);
      var a, b := EvaluateAll(kids, mode, lo), EvaluateAll(kids, mode, hi);
      forall i | 0 <= i < |kids| ensures Severity(a[i]) <= Severity(b[i]) {
        assert forall id :: id in LeafIds(kids[i]) ==> id in LeafIds(n);
        EvaluateMonotone(kids[i], mode, lo, hi);
      }
      CombineMonotone(a, b);
    }
  }

  // ---------------------------------------------------------------------
  // The policy
  // ---------------------------------------------------------------------

  datatype Policy = Policy(permissive: set<string>, copyleft: set<string>, mode: Mode)

  /** One identifier against the policy lists: exact, then by modifier prefix. */
  function CategorizeSingle(permissive: set<string>, copyleft: set<string>, id: string): Category {
    if id in permissive then Permissive
    else if id in copyleft then Copyleft
    else if exists b :: b in permissive && HasPrefix(id, b + "-") then Permissive
    else if exists b :: b in copyleft && HasPrefix(id, b + "-") then Copyleft
    else Unknown
  }

  function Listed(permissive: set<string>, copyleft: set<string>): string -> Category {
    id => CategorizeSingle(permissive, copyleft, id)
  }

  /** The category of a license string; normalize stands for the alias tables. */
  function Categorize(p: Policy, normalize: string -> string, licenseId: string): Category {
    var id := normalize(TrimSpace(licenseId));
    var lookup := Listed(p.permissive, p.copyleft);
    if IsNoLicenseInfo(id) then Unknown
    else if lookup(id) != Unknown then lookup(id)
    else if p.mode == Off then Unapproved
    else if !HasOperator(Tokens(id)) then LookupLeaf(id, lookup)
    else
      match Parse(Tokens(id))
      case Err(_) => Unknown
      case Ok(tree) =>
        assert WellBuilt(tree) by { ParsedIsWellBuilt(Tokens(id)); }
        Evaluate(tree, p.mode, lookup)
  }

  // ---------------------------------------------------------------------
  // What a policy says of one license
  // ---------------------------------------------------------------------

  /** No license information: white space apart nothing, or a placeholder word in
      any letter case. */
  ghost predicate Placeholder(id: string) {
    exists t :: TrimsTo(id, t) && PlaceholderWord(t)
  }

  predicate PlaceholderWord(t: string) {
    t == "" || Reads(t, "NOASSERTION") || Reads(t, "NONE") || Reads(t, "UNKNOWN")
  }

  lemma PlaceholderDecided(id: string)
    ensures IsNoLicenseInfo(id) <==> Placeholder(id)
  {
    forall t ensures TrimSpace(id) == t <==> TrimsTo(id, t) { TrimSpaceTrims(id, t); }
    var t := TrimSpace(id);
    assert TrimsTo(id, t);
    ReadsUpper(t, "NOASSERTION");
    ReadsUpper(t, "NONE");
    ReadsUpper(t, "UNKNOWN");
    assert t == "" <==> ToUpper(t) == "";
  }

  /** The list holds a license that x continues with "-". */
  ghost predicate Continues(list: set<string>, x: string) {
    exists b :: b in list && b + "-" <= x
  }

  /** The entry that decides about x: the very string before one it continues,
      and the permissive list before the other. */
  ghost predicate Lists(p: Policy, x: string, c: Category) {
    match c
    case Permissive => x in p.permissive || (x !in p.copyleft && Continues(p.permissive, x))
    case Copyleft => x !in p.permissive && (x in p.copyleft || (Continues(p.copyleft, x) && !Continues(p.permissive, x)))
    case Unknown => false
    case Unapproved => false
  }

  ghost predicate IsListed(p: Policy, x: string) {
    x in p.permissive || x in p.copyleft || Continues(p.permissive, x) || Continues(p.copyleft, x)
  }

  /** The spellings under which a license may be listed, the written one first. */
  ghost predicate Spellings(id: string, alts: seq<string>) {
    if exists base :: CutAt(id, " WITH ", base) then exists base :: CutAt(id, " WITH ", base) && alts == [id, base]
    else if id != "" && id[|id| - 1] == '+' then alts == [id, id[..|id| - 1] + "-or-later", id[..|id| - 1]]
    else if exists base :: CutAt(id, "-with-", base) then
      exists base :: CutAt(id, "-with-", base) && alts == [id, base, base + "-only"]
    else alts == [id, id + "-only"]
  }

  /** The first listed spelling decides. Without one, a placeholder is unknown and
      any other license unapproved. */
  ghost predicate Decides(p: Policy, id: string, alts: seq<string>, c: Category) {
    if exists k :: 0 <= k < |alts| && IsListed(p, alts[k]) then
      exists k :: 0 <= k < |alts| && Lists(p, alts[k], c) && forall m :: 0 <= m < k ==> !IsListed(p, alts[m])
    else c == if Placeholder(id) then Unknown else Unapproved
  }

  ghost predicate LicenseIs(p: Policy, id: string, c: Category) {
    exists alts :: Spellings(id, alts) && Decides(p, id, alts, c)
  }

  lemma SingleMeans(p: Policy, x: string)
    ensures var c := CategorizeSingle(p.permissive, p.copyleft, x);
            (IsListed(p, x) <==> c != Unknown) && (c != Unknown ==> Lists(p, x, c))
            && forall d :: Lists(p, x, d) ==> d == c
  {
  }

  /** The first category found among the spellings. */
  ghost function FirstKnown(lookup: string -> Category, alts: seq<string>): Category {
    if alts == [] then Unknown else if lookup(alts[0]) != Unknown then lookup(alts[0]) else FirstKnown(lookup, alts[1..])
  }

  lemma ResolveIsFirstKnown(id: string, lookup: string -> Category) returns (alts: seq<string>)
    ensures Spellings(id, alts) && ResolveLeaf(id, lookup) == FirstKnown(lookup, alts)
  {
    forall base ensures CutAt(id, " WITH ", base) <==> Before(id, " WITH ") == Some(base) { BeforeCuts(id, " WITH ", base); }
    forall base ensures CutAt(id, "-with-", base) <==> Before(id, "-with-") == Some(base) { BeforeCuts(id, "-with-", base); }
    if Before(id, " WITH ").Some? {
      alts := [id, Before(id, " WITH ").value];
    } else if id != "" && id[|id| - 1] == '+' {
      alts := [id, id[..|id| - 1] + "-or-later", id[..|id| - 1]];
    } else if Before(id, "-with-").Some? {
      alts := [id, Before(id, "-with-").value, Before(id, "-with-").value + "-only"];
    } else {
      alts := [id, id + "-only"];
    }
    assert FirstKnown(lookup, alts[1..][1..]) == if |alts| == 2 then Unknown else lookup(alts[2]);
  }

  lemma {:induction false} FirstKnownDecides(p: Policy, id: string, alts: seq<string>)
    ensures var c := FirstKnown(Listed(p.permissive, p.copyleft), alts);
            if c == Unknown then forall k :: 0 <= k < |alts| ==> !IsListed(p, alts[k])
            else exists k :: 0 <= k < |alts| && Lists(p, alts[k], c) && forall m :: 0 <= m < k ==> !IsListed(p, alts[m])
  {
    if alts != [] {
      SingleMeans(p, alts[0]);
      var rest := alts[1..];
      FirstKnownDecides(p, id, rest);
      var lookup := Listed(p.permissive, p.copyleft);
      if lookup(alts[0]) != Unknown {
        assert Lists(p, alts[0], lookup(alts[0]));
      } else if FirstKnown(lookup, rest) != Unknown {
        var k :| 0 <= k < |rest| && Lists(p, rest[k], FirstKnown(lookup, rest)) && forall m :: 0 <= m < k ==> !IsListed(p, rest[m]);
        assert Lists(p, alts[k + 1], FirstKnown(lookup, rest));
        assert forall m :: 0 < m < k + 1 ==> alts[m] == rest[m - 1];
      } else {
        assert forall m :: 0 < m < |alts| ==> alts[m] == rest[m - 1];
      }
    }
  }

  lemma ListedDecides(p: Policy, x: string, c: Category, d: Category)
    requires Lists(p, x, c)
    ensures IsListed(p, x) && c != Unknown && c != Unapproved && (Lists(p, x, d) ==> c == d)
  {
  }

  lemma OneSpelling(id: string, alts: seq<string>, more: seq<string>)
    requires Spellings(id, alts) && Spellings(id, more)
    ensures alts == more
  {
    forall base, other | CutAt(id, " WITH ", base) && CutAt(id, " WITH ", other) ensures base == other {
      BeforeCuts(id, " WITH ", base);
      BeforeCuts(id, " WITH ", other);
    }
    forall base, other | CutAt(id, "-with-", base) && CutAt(id, "-with-", other) ensures base == other {
      BeforeCuts(id, "-with-", base);
      BeforeCuts(id, "-with-", other);
    }
  }

  lemma DecidesOne(p: Policy, id: string, alts: seq<string>, c: Category, d: Category)
    requires Decides(p, id, alts, c) && Decides(p, id, alts, d)
    ensures c == d
  {
    if exists k :: 0 <= k < |alts| && IsListed(p, alts[k]) {
      var k :| 0 <= k < |alts| && Lists(p, alts[k], c) && forall m :: 0 <= m < k ==> !IsListed(p, alts[m]);
      var l :| 0 <= l < |alts| && Lists(p, alts[l], d) && forall m :: 0 <= m < l ==> !IsListed(p, alts[m]);
      ListedDecides(p, alts[k], c, d);
      ListedDecides(p, alts[l], d, c);
    }
  }

  /** The category of one license is what its first listed spelling says. */
  lemma LeafIsDecided(p: Policy, id: string, c: Category)
    ensures LookupLeaf(id, Listed(p.permissive, p.copyleft)) == c <==> LicenseIs(p, id, c)
  {
    var lookup := Listed(p.permissive, p.copyleft);
    var alts := ResolveIsFirstKnown(id, lookup);
    FirstKnownDecides(p, id, alts);
    PlaceholderDecided(id);
    var d := LookupLeaf(id, lookup);
    assert Decides(p, id, alts, d) by {
      if k :| 0 <= k < |alts| && Lists(p, alts[k], d) { ListedDecides(p, alts[k], d, d); }
    }
    if LicenseIs(p, id, c) {
      var more :| Spellings(id, more) && Decides(p, id, more, c);
      OneSpelling(id, alts, more);
      DecidesOne(p, id, alts, c, d);
    }
  }

  // ---------------------------------------------------------------------
  // What a policy says of a license string
  // ---------------------------------------------------------------------

  /** The policy puts the license at most this severe. */
  ghost predicate PutsAtMost(p: Policy, id: string, limit: int) {
    exists c :: LicenseIs(p, id, c) && Severity(c) <= limit
  }

  lemma LeafAtMost(p: Policy, id: string, limit: int)
    ensures PutsAtMost(p, id, limit) <==> Severity(LookupLeaf(id, Listed(p.permissive, p.copyleft))) <= limit
  {
    forall c ensures LookupLeaf(id, Listed(p.permissive, p.copyleft)) == c <==> LicenseIs(p, id, c) { LeafIsDecided(p, id, c); }
  }

  lemma {:induction false} SameSatisfied(n: Expr, a: string -> bool, b: string -> bool)
    requires forall id :: a(id) <==> b(id)
    ensures Satisfied(n, a) <==> Satisfied(n, b)
  {
    if !n.Leaf? {
      forall k | k in n.children ensures Satisfied(k, a) <==> Satisfied(k, b) { SameSatisfied(k, a, b); }
    }
  }

  /** What an expression amounts to: in strict mode its boolean reading at every
      severity, under permissive-wins its least severe license. */
  ghost predicate ExpressionIs(p: Policy, tree: Expr, c: Category) {
    forall limit :: ExpressionAtMost(p, tree, limit) <==> Severity(c) <= limit
  }

  ghost predicate ExpressionAtMost(p: Policy, tree: Expr, limit: int) {
    if p.mode == Strict then Satisfied(tree, id => PutsAtMost(p, id, limit))
    else exists id :: id in LeafIds(tree) && PutsAtMost(p, id, limit)
  }

  lemma EvaluateMeans(p: Policy, tree: Expr)
    requires WellBuilt(tree) && p.mode != Off
    ensures ExpressionIs(p, tree, Evaluate(tree, p.mode, Listed(p.permissive, p.copyleft)))
  {
    var lookup := Listed(p.permissive, p.copyleft);
    forall limit ensures ExpressionAtMost(p, tree, limit) <==> Severity(Evaluate(tree, p.mode, lookup)) <= limit {
      forall id ensures PutsAtMost(p, id, limit) <==> Severity(LookupLeaf(id, lookup)) <= limit { LeafAtMost(p, id, limit); }
      if p.mode == Strict {
        StrictIsBoolean(tree, lookup, limit);
        SameSatisfied(tree, AtMostSevere(limit, lookup), id => PutsAtMost(p, id, limit));
      } else {
        PermissiveWinsIsMinimum(tree, lookup, limit);
      }
    }
  }

  /** The category of every license string: a placeholder is unknown, a string the
      policy lists is what its entry says, any other is unapproved when expressions
      are off, decided by its spellings when it is one license, unknown when it
      does not parse, and otherwise what the expression amounts to. */
  lemma CategorizeMeans(p: Policy, normalize: string -> string, licenseId: string)
    ensures var id, c := normalize(TrimSpace(licenseId)), Categorize(p, normalize, licenseId);
            if Placeholder(id) then c == Unknown
            else if IsListed(p, id) then Lists(p, id, c)
            else if p.mode == Off then c == Unapproved
            else if forall t :: t in Tokens(id) ==> t.TokId? then LicenseIs(p, id, c)
            else match Parse(Tokens(id))
              case Err(_) => c == Unknown
              case Ok(tree) => ExpressionIs(p, tree, c)
  {
    var id := normalize(TrimSpace(licenseId));
    PlaceholderDecided(id);
    SingleMeans(p, id);
    LeafIsDecided(p, id, LookupLeaf(id, Listed(p.permissive, p.copyleft)));
    if Parse(Tokens(id)).Ok? && p.mode != Off {
      ParsedIsWellBuilt(Tokens(id));
      EvaluateMeans(p, Parse(Tokens(id)).value);
    }
  }

  /** A single license none of whose spellings is listed is a violation in every mode. */
  lemma UnlistedIsUnapproved(p: Policy, normalize: string -> string, licenseId: string, alts: seq<string>)
    requires var id := normalize(TrimSpace(licenseId));
             !Placeholder(id) && (forall t :: t in Tokens(id) ==> t.TokId?) && Spellings(id, alts)
    requires forall k :: 0 <= k < |alts| ==> !IsListed(p, alts[k])
    ensures Categorize(p, normalize, licenseId) == Unapproved
  {
    var id := normalize(TrimSpace(licenseId));
    CategorizeMeans(p, normalize, licenseId);
    assert alts[0] == id;
    forall c | LicenseIs(p, id, c) ensures c == Unapproved {
      var more :| Spellings(id, more) && Decides(p, id, more, c);
      OneSpelling(id, alts, more);
    }
  }

  /** The category of an expression is that of one of its licenses. */
  lemma {:induction false} EvaluateIsOfLeaf(n: Expr, mode: Mode, lookup: string -> Category) returns (id: string)
    requires WellBuilt(n)
    ensures id in LeafIds(n) && LookupLeaf(id, lookup) == Evaluate(n, mode, lookup)
  {
    if n.Leaf? {
      id := n.id;
    } else {
      var kids := n.children;
      var cats := EvaluateAll(kids, mode, lookup);
      var i := ChosenAmong(cats, Evaluate(n, mode, lookup));
      id := EvaluateIsOfLeaf(kids[i], mode, lookup);
      LeafIdsOfKids(kids);
    }
  }

  lemma ChosenAmong(cats: seq<Category>, c: Category) returns (i: nat)
    requires |cats| > 0 && (c == BestOf(cats[0], cats[1..]) || c == WorstOf(cats[0], cats[1..]))
    ensures i < |cats| && cats[i] == c
  {
    BestIsLeast(cats[0], cats[1..]);
    WorstIsGreatest(cats[0], cats[1..]);
    assert cats == [cats[0]] + cats[1..];
    i :| 0 <= i < |cats| && cats[i] == c;
  }

  /** Some spelling of the license has an entry that puts it in this category. */
  ghost predicate HasEntry(p: Policy, id: string, c: Category) {
    exists alts, k :: Spellings(id, alts) && 0 <= k < |alts| && Lists(p, alts[k], c)
  }

  lemma LeafHasEntry(p: Policy, id: string, c: Category)
    requires LicenseIs(p, id, c) && (c == Permissive || c == Copyleft)
    ensures HasEntry(p, id, c)
  {
  }

  lemma ListedHasEntry(p: Policy, id: string, c: Category)
    requires Lists(p, id, c)
    ensures HasEntry(p, id, c)
  {
    var alts := ResolveIsFirstKnown(id, Listed(p.permissive, p.copyleft));
    assert alts[0] == id;
  }

  /** Nothing is permissive or copyleft but by an entry of that list, for the whole
      string or for one of its licenses. */
  lemma CategoryHasEntry(p: Policy, normalize: string -> string, licenseId: string, c: Category)
    requires Categorize(p, normalize, licenseId) == c && (c == Permissive || c == Copyleft)
    ensures var id := normalize(TrimSpace(licenseId));
            || HasEntry(p, id, c)
            || (Parse(Tokens(id)).Ok? && exists x :: x in LeafIds(Parse(Tokens(id)).value) && HasEntry(p, x, c))
  {
    var id := normalize(TrimSpace(licenseId));
    var lookup := Listed(p.permissive, p.copyleft);
    CategorizeMeans(p, normalize, licenseId);
    if IsListed(p, id) {
      ListedHasEntry(p, id, c);
    } else if LookupLeaf(id, lookup) == c {
      LeafIsDecided(p, id, c);
      LeafHasEntry(p, id, c);
    } else {
      ParsedIsWellBuilt(Tokens(id));
      var tree := Parse(Tokens(id)).value;
      var x := EvaluateIsOfLeaf(tree, p.mode, lookup);
      LeafIsDecided(p, x, c);
      LeafHasEntry(p, x, c);
    }
  }

  lemma CategorizeBelowStrict(p: Policy, normalize: string -> string, licenseId: string)
    ensures Severity(Categorize(p.(mode := PermissiveWins), normalize, licenseId))
            <= Severity(Categorize(p.(mode := Strict), normalize, licenseId))
  {
    var ts := Tokens(normalize(TrimSpace(licenseId)));
    if Parse(ts).Ok? {
      ParsedIsWellBuilt(ts);
      PermissiveWinsBelowStrict(Parse(ts).value, Listed(p.permissive, p.copyleft));
    }
  }

  /** q allows what p allows and forbids nothing p does not forbid. */
  predicate Allows(p: Policy, q: Policy) {
    p.mode == q.mode && p.permissive <= q.permissive && q.copyleft <= p.copyleft
  }

  lemma AllowingSingle(p: Policy, q: Policy, id: string)
    requires Allows(p, q)
    ensures var before, after := CategorizeSingle(p.permissive, p.copyleft, id), CategorizeSingle(q.permissive, q.copyleft, id);
            after == before || before == Copyleft || after == Permissive
  {
  }

  lemma AllowingLeaf(p: Policy, q: Policy, id: string)
    requires Allows(p, q)
    ensures Severity(LookupLeaf(id, Listed(q.permissive, q.copyleft))) <= Severity(LookupLeaf(id, Listed(p.permissive, p.copyleft)))
  {
    var before, after := Listed(p.permissive, p.copyleft), Listed(q.permissive, q.copyleft);
    forall s ensures after(s) == before(s) || before(s) == Copyleft || after(s) == Permissive { AllowingSingle(p, q, s); }
    BetterLeaf(id, after, before);
  }

  lemma BetterLeaf(id: string, lo: string -> Category, hi: string -> Category)
    requires forall s :: lo(s) == hi(s) || hi(s) == Copyleft || lo(s) == Permissive
    ensures Severity(LookupLeaf(id, lo)) <= Severity(LookupLeaf(id, hi))
  {
  }

  /** Allowing more licenses never makes the category of any string worse. */
  lemma AllowingNeverHurts(p: Policy, q: Policy, normalize: string -> string, licenseId: string)
    requires Allows(p, q)
    ensures Severity(Categorize(q, normalize, licenseId)) <= Severity(Categorize(p, normalize, licenseId))
  {
    var id := normalize(TrimSpace(licenseId));
    AllowingSingle(p, q, id);
    AllowingLeaf(p, q, id);
    if Parse(Tokens(id)).Ok? {
      ParsedIsWellBuilt(Tokens(id));
      forall x ensures Severity(LookupLeaf(x, Listed(q.permissive, q.copyleft))) <= Severity(LookupLeaf(x, Listed(p.permissive, p.copyleft))) {
        AllowingLeaf(p, q, x);
      }
      EvaluateMonotone(Parse(Tokens(id)).value, p.mode, Listed(q.permissive, q.copyleft), Listed(p.permissive, p.copyleft));
    }
  }
}
