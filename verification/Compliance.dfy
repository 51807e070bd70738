/** The license compliance check and its re-evaluation under new exception rules
    (internal/license/checker.go and reevaluate.go, and the recheck job of
    cmd/parsing-worker/license_recheck.go). */
module Compliance {
  import opened Text
  import opened Evaluation
  import opened Exceptions

  /** The outcome for one license of one SBOM. */
  datatype Result = Result(
    licenseId: string,
    category: Category,
    packageCount: nat,
    nonCompliant: seq<string>,
    exempted: seq<string>,
    reason: string)

  /** What an exception index decides: the reason a package and license pair is
      exempt in a project, if it is. The check uses nothing else of the index. */
  type Decider = (string, string, Option<string>) -> Option<string>

  function DeciderOf(idx: Index): Decider {
    (name, lic, project) => Decision(idx, name, lic, project)
  }

  /** Why a pair is exempt under possibly absent rules. */
  function Exempt(exceptions: Option<Decider>, name: string, lic: string, project: Option<string>): Option<string> {
    if exceptions.None? then None else exceptions.value(name, lic, project)
  }

  function BlanketExemption(exceptions: Option<Decider>, lic: string): Option<string> {
    Exempt(exceptions, "", lic, None)
  }

  // ---------------------------------------------------------------------
  // Splitting packages
  // ---------------------------------------------------------------------

  function Keep(names: seq<string>, keep: string -> bool): seq<string> {
    if names == [] then []
    else Keep(names[..|names| - 1], keep) + (if keep(names[|names| - 1]) then [names[|names| - 1]] else [])
  }

  function IsExemptHere(exceptions: Option<Decider>, lic: string, project: Option<string>): string -> bool {
    name => Exempt(exceptions, name, lic, project).Some?
  }

  function IsViolationHere(exceptions: Option<Decider>, lic: string, project: Option<string>): string -> bool {
    name => Exempt(exceptions, name, lic, project).None?
  }

  lemma {:induction false} KeepCounts(names: seq<string>, keep: string -> bool, x: string)
    ensures multiset(Keep(names, keep))[x] == if keep(x) then multiset(names)[x] else 0
  {
    if names != [] {
      var n := |names| - 1;
      assert names == names[..n] + [names[n]];
      KeepCounts(names[..n], keep, x);
    }
  }

  lemma KeepPermutes(a: seq<string>, b: seq<string>, keep: string -> bool)
    requires multiset(a) == multiset(b)
    ensures multiset(Keep(a, keep)) == multiset(Keep(b, keep))
  {
    forall x ensures multiset(Keep(a, keep))[x] == multiset(Keep(b, keep))[x] {
      KeepCounts(a, keep, x);
      KeepCounts(b, keep, x);
    }
  }

  /** Splitting by a predicate loses and invents no package. */
  lemma SplitConserves(names: seq<string>, exceptions: Option<Decider>, lic: string, project: Option<string>)
    ensures multiset(Keep(names, IsViolationHere(exceptions, lic, project)) + Keep(names, IsExemptHere(exceptions, lic, project)))
            == multiset(names)
  {
    var v, e := IsViolationHere(exceptions, lic, project), IsExemptHere(exceptions, lic, project);
    forall x ensures multiset(Keep(names, v) + Keep(names, e))[x] == multiset(names)[x] {
      KeepCounts(names, v, x);
      KeepCounts(names, e, x);
    }
  }

  lemma {:induction false} KeepTwice(names: seq<string>, keep: string -> bool)
    ensures Keep(Keep(names, keep), keep) == Keep(names, keep)
    ensures forall x :: x in Keep(names, keep) ==> keep(x)
  {
    if names != [] {
      var n := |names| - 1;
      var k := Keep(names[..n], keep);
      KeepTwice(names[..n], keep);
      if keep(names[n]) { assert (k + [names[n]])[..|k|] == k; } else { assert k + [] == k; }
    }
  }

  lemma {:induction false} KeepAll(names: seq<string>, keep: string -> bool)
    requires forall x :: x in names ==> keep(x)
    ensures Keep(names, keep) == names
  {
    if names != [] {
      var n := |names| - 1;
      assert names == names[..n] + [names[n]];
      KeepAll(names[..n], keep);
    }
  }

  lemma {:induction false} KeepNone(names: seq<string>, keep: string -> bool)
    requires forall x :: x in names ==> !keep(x)
    ensures Keep(names, keep) == []
  {
    if names != [] {
      KeepNone(names[..|names| - 1], keep);
    }
  }

  lemma {:induction false} KeepConcat(a: seq<string>, b: seq<string>, keep: string -> bool)
    ensures Keep(a + b, keep) == Keep(a, keep) + Keep(b, keep)
  {
    if b == [] {
      assert a + b == a;
    } else {
      var n := |b| - 1;
      assert (a + b)[..|a + b| - 1] == a + b[..n];
      KeepConcat(a, b[..n], keep);
    }
  }

  // ---------------------------------------------------------------------
  // The fresh check
  // ---------------------------------------------------------------------

  predicate IsAlphanumeric(c: char) {
    'a' <= c <= 'z' || 'A' <= c <= 'Z' || '0' <= c <= '9'
  }

  /** Temporary build directories that generators mistake for packages. */
  predicate IsGoTempName(name: string) {
    && "tmp." <= name && |name| >= 10
    && forall i :: 4 <= i < |name| ==> IsAlphanumeric(name[i])
  }

  function NameAt(names: seq<string>, i: nat): string {
    if i < |names| then names[i] else ""
  }

  /** The packages among the first k that carry the license. */
  function Tracked(names: seq<string>, licenses: seq<string>, lic: string, k: nat): seq<string>
    requires k <= |licenses|
  {
    if k == 0 then []
    else Tracked(names, licenses, lic, k - 1)
         + (if licenses[k - 1] == lic && !IsGoTempName(NameAt(names, k - 1)) then [NameAt(names, k - 1)] else [])
  }

  const COUNTERS := 0x1_0000_0000

  /** The outcome a check of these packages reports for the license. */
  function Fresh(lic: string, tracked: seq<string>, category: Category, exceptions: Option<Decider>,
                 project: Option<string>): Result {
    var count := |tracked| % COUNTERS;
    match BlanketExemption(exceptions, lic)
    case Some(reason) => Result(lic, category, count, [], tracked, reason)
    case None =>
      if category == Permissive then Result(lic, category, count, [], [], "")
      else Result(lic, category, count, Keep(tracked, IsViolationHere(exceptions, lic, project)),
                  Keep(tracked, IsExemptHere(exceptions, lic, project)), "")
  }

  lemma CounterNext(n: nat)
    ensures (n % COUNTERS + 1) % COUNTERS == (n + 1) % COUNTERS
  {
    var q := n / COUNTERS;
    assert n == q * COUNTERS + n % COUNTERS;
    if n % COUNTERS + 1 == COUNTERS {
      assert n + 1 == (q + 1) * COUNTERS;
    }
  }

  /** How one more package changes a list. */
  lemma KeepNext(names: seq<string>, name: string, keep: string -> bool)
    ensures Keep(names + [name], keep) == if keep(name) then Keep(names, keep) + [name] else Keep(names, keep)
  {
    assert (names + [name])[..|names|] == names;
    assert Keep(names, keep) + [] == Keep(names, keep);
  }

  /** Starts the entry of a license not seen before. */
  method NewEntry(lic: string, category: Category, exceptions: Option<Decider>, project: Option<string>)
    returns (entry: Result)
    ensures entry == Fresh(lic, [], category, exceptions, project)
  {
    var blanket := Exempt(exceptions, "", lic, None);
    entry := Result(lic, category, 0, [], [], if blanket.Some? then blanket.value else "");
  }

  /** What one more package adds to an outcome. */
  lemma FreshNext(lic: string, tracked: seq<string>, category: Category, name: string,
                  exceptions: Option<Decider>, project: Option<string>)
    ensures var now, next := Fresh(lic, tracked, category, exceptions, project), Fresh(lic, tracked + [name], category, exceptions, project);
            var counted := now.(packageCount := (now.packageCount + 1) % COUNTERS);
            next == if BlanketExemption(exceptions, lic).Some? then counted.(exempted := now.exempted + [name])
                    else if category == Permissive then counted
                    else if Exempt(exceptions, name, lic, project).Some? then counted.(exempted := now.exempted + [name])
                    else counted.(nonCompliant := now.nonCompliant + [name])
  {
    CounterNext(|tracked|);
    assert |tracked + [name]| == |tracked| + 1;
    if BlanketExemption(exceptions, lic).None? && category != Permissive {
      KeepNext(tracked, name, IsExemptHere(exceptions, lic, project));
      KeepNext(tracked, name, IsViolationHere(exceptions, lic, project));
    }
  }

  /** One more package of the license, counted into its entry of the aggregate. */
  method CountPackage(agg: map<string, Result>, lic: string, category: Category, name: string,
                      exceptions: Option<Decider>, project: Option<string>, ghost tracked: seq<string>)
    returns (entry: Result)
    requires lic in agg ==> agg[lic] == Fresh(lic, tracked, category, exceptions, project)
    requires lic !in agg ==> tracked == []
    ensures entry == Fresh(lic, tracked + [name], category, exceptions, project)
  {
    if lic in agg {
      entry := agg[lic];
    } else {
      entry := NewEntry(lic, category, exceptions, project);
    }
    FreshNext(lic, tracked, category, name, exceptions, project);
    entry := entry.(packageCount := (entry.packageCount + 1) % COUNTERS);
    if BlanketExemption(exceptions, lic).Some? {
      entry := entry.(exempted := entry.exempted + [name]);
    } else if category != Permissive {
      var exempt := Exempt(exceptions, name, lic, project);
      if exempt.Some? {
        entry := entry.(exempted := entry.exempted + [name]);
      } else {
        entry := entry.(nonCompliant := entry.nonCompliant + [name]);
      }
    }
  }

  predicate Counts(names: seq<string>, licenses: seq<string>, lic: string, i: nat)
    requires i < |licenses|
  {
    licenses[i] == lic && !IsGoTempName(NameAt(names, i))
  }

  /** The aggregate after the first i packages, each entry given by outcome. */
  ghost predicate Aggregates(agg: map<string, Result>, names: seq<string>, licenses: seq<string>, i: nat,
                             outcome: (string, seq<string>) -> Result)
    requires i <= |licenses|
  {
    && (forall lic :: lic in agg <==> Tracked(names, licenses, lic, i) != [])
    && (forall lic :: lic in agg ==> agg[lic] == outcome(lic, Tracked(names, licenses, lic, i)))
  }

  lemma AggregatesNext(agg: map<string, Result>, names: seq<string>, licenses: seq<string>, i: nat,
                       outcome: (string, seq<string>) -> Result)
    requires i < |licenses| && Aggregates(agg, names, licenses, i, outcome)
    ensures var lic, name := licenses[i], NameAt(names, i);
            if IsGoTempName(name) then Aggregates(agg, names, licenses, i + 1, outcome)
            else Aggregates(agg[lic := outcome(lic, Tracked(names, licenses, lic, i) + [name])], names, licenses, i + 1, outcome)
  {
    forall lic ensures Tracked(names, licenses, lic, i + 1) ==
                       if Counts(names, licenses, lic, i) then Tracked(names, licenses, lic, i) + [NameAt(names, i)]
                       else Tracked(names, licenses, lic, i)
    {
      TrackedNext(names, licenses, lic, i);
    }
  }

  lemma TrackedNext(names: seq<string>, licenses: seq<string>, lic: string, i: nat)
    requires i < |licenses|
    ensures Tracked(names, licenses, lic, i + 1) ==
            if Counts(names, licenses, lic, i) then Tracked(names, licenses, lic, i) + [NameAt(names, i)]
            else Tracked(names, licenses, lic, i)
  {
    assert Tracked(names, licenses, lic, i) + [] == Tracked(names, licenses, lic, i);
  }

  ghost function FreshBy(categorize: string -> Category, exceptions: Option<Decider>, project: Option<string>):
    (string, seq<string>) -> Result
  {
    (lic, tracked) => Fresh(lic, tracked, categorize(lic), exceptions, project)
  }

  /** Counts package i into the aggregate. */
  method CountInto(agg: map<string, Result>, names: seq<string>, licenses: seq<string>, i: nat,
                   exceptions: Option<Decider>, project: Option<string>, categorize: string -> Category)
    returns (next: map<string, Result>)
    requires i < |licenses| && Aggregates(agg, names, licenses, i, FreshBy(categorize, exceptions, project))
    ensures Aggregates(next, names, licenses, i + 1, FreshBy(categorize, exceptions, project))
  {
    var lic, name := licenses[i], NameAt(names, i);
    AggregatesNext(agg, names, licenses, i, FreshBy(categorize, exceptions, project));
    if IsGoTempName(name) { return agg; }
    var entry := CountPackage(agg, lic, categorize(lic), name, exceptions, project, Tracked(names, licenses, lic, i));
    next := agg[lic := entry];
  }

  // ---------------------------------------------------------------------
  // What the check accounts for
  // ---------------------------------------------------------------------

  /** "tmp." and at least six letters and digits. */
  predicate IsTemporary(name: string) {
    && |name| >= 4 + 6 && name[..4] == "tmp."
    && forall k :: 4 <= k < |name| ==> 'a' <= name[k] <= 'z' || 'A' <= name[k] <= 'Z' || '0' <= name[k] <= '9'
  }

  /** Package i carries the license and is no temporary directory. */
  ghost predicate Carries(names: seq<string>, licenses: seq<string>, lic: string, i: int) {
    0 <= i < |licenses| && licenses[i] == lic && !(i < |names| && IsTemporary(names[i]))
  }

  ghost predicate IsCalled(names: seq<string>, i: nat, name: string) {
    if i < |names| then names[i] == name else name == ""
  }

  /** At how many of the first k places the condition holds. */
  ghost function HowMany(k: nat, where: nat -> bool): nat {
    if k == 0 then 0 else HowMany(k - 1, where) + if where(k - 1) then 1 else 0
  }

  lemma {:induction false} HowManySame(k: nat, a: nat -> bool, b: nat -> bool)
    requires forall i: nat :: i < k ==> (a(i) <==> b(i))
    ensures HowMany(k, a) == HowMany(k, b)
  {
    if k > 0 { HowManySame(k - 1, a, b); }
  }

  /** What stands at those of the first k places where the condition holds. */
  ghost function Gather(k: nat, where: nat -> bool, at: nat -> string): seq<string> {
    if k == 0 then [] else Gather(k - 1, where, at) + if where(k - 1) then [at(k - 1)] else []
  }

  lemma {:induction false} GatherCounts(k: nat, where: nat -> bool, at: nat -> string, name: string)
    ensures |Gather(k, where, at)| == HowMany(k, where)
    ensures multiset(Gather(k, where, at))[name] == HowMany(k, (i: nat) => where(i) && at(i) == name)
  {
    if k > 0 { GatherCounts(k - 1, where, at, name); }
  }

  lemma {:induction false} GatherSome(k: nat, where: nat -> bool, at: nat -> string)
    ensures Gather(k, where, at) != [] <==> exists i: nat :: i < k && where(i)
  {
    if k > 0 { GatherSome(k - 1, where, at); }
  }

  /** How many of the first k packages carry the license. */
  ghost function Carriers(names: seq<string>, licenses: seq<string>, lic: string, k: nat): nat {
    HowMany(k, (i: nat) => Carries(names, licenses, lic, i))
  }

  /** How many of them are called name. */
  ghost function Namesakes(names: seq<string>, licenses: seq<string>, lic: string, name: string, k: nat): nat {
    HowMany(k, (i: nat) => Carries(names, licenses, lic, i) && IsCalled(names, i, name))
  }

  /** The lists hold every package of the license, as often as it occurs, on the
      side that exempts says. */
  ghost predicate SplitAs(r: Result, names: seq<string>, licenses: seq<string>, lic: string, exempts: string -> bool) {
    forall name ::
      && multiset(r.exempted)[name] == (if exempts(name) then Namesakes(names, licenses, lic, name, |licenses|) else 0)
      && multiset(r.nonCompliant)[name] == (if exempts(name) then 0 else Namesakes(names, licenses, lic, name, |licenses|))
  }

  /** What one entry says: how many packages carry the license, in 32 bits, and which
      of them are exempt: all under a blanket exception, and otherwise, unless the
      license is permissive, those the rules exempt one by one. */
  ghost predicate Accounts(r: Result, names: seq<string>, licenses: seq<string>, lic: string, category: Category,
                           exceptions: Option<Decider>, project: Option<string>) {
    && r.licenseId == lic && r.category == category
    && r.packageCount == Carriers(names, licenses, lic, |licenses|) % 0x1_0000_0000
    && if exceptions.Some? && exceptions.value("", lic, None).Some? then
         r.reason == exceptions.value("", lic, None).value && SplitAs(r, names, licenses, lic, name => true)
       else
         && r.reason == ""
         && if category == Permissive then r.nonCompliant == [] && r.exempted == []
            else SplitAs(r, names, licenses, lic, name => exceptions.Some? && exceptions.value(name, lic, project).Some?)
  }

  ghost predicate AccountsForAll(agg: map<string, Result>, names: seq<string>, licenses: seq<string>, exceptions: Option<Decider>,
                                 project: Option<string>, categorize: string -> Category) {
    && (forall lic :: lic in agg <==> exists i :: Carries(names, licenses, lic, i))
    && (forall lic :: lic in agg ==> Accounts(agg[lic], names, licenses, lic, categorize(lic), exceptions, project))
  }

  lemma TemporaryMeans(name: string)
    ensures IsGoTempName(name) <==> IsTemporary(name)
  {
  }

  lemma CountsMeans(names: seq<string>, licenses: seq<string>, lic: string, i: nat)
    requires i < |licenses|
    ensures Counts(names, licenses, lic, i) <==> Carries(names, licenses, lic, i)
    ensures forall name :: IsCalled(names, i, name) <==> name == NameAt(names, i)
  {
    TemporaryMeans(NameAt(names, i));
    assert !IsGoTempName("");
  }

  lemma {:induction false} TrackedIsGathered(names: seq<string>, licenses: seq<string>, lic: string, k: nat)
    requires k <= |licenses|
    ensures Tracked(names, licenses, lic, k) == Gather(k, (i: nat) => Carries(names, licenses, lic, i), (i: nat) => NameAt(names, i))
  {
    if k > 0 {
      TrackedIsGathered(names, licenses, lic, k - 1);
      CountsMeans(names, licenses, lic, k - 1);
    }
  }

  lemma TrackedCarriers(names: seq<string>, licenses: seq<string>, lic: string)
    ensures |Tracked(names, licenses, lic, |licenses|)| == Carriers(names, licenses, lic, |licenses|)
  {
    TrackedIsGathered(names, licenses, lic, |licenses|);
    GatherCounts(|licenses|, (i: nat) => Carries(names, licenses, lic, i), (i: nat) => NameAt(names, i), "");
  }

  lemma TrackedNamesakes(names: seq<string>, licenses: seq<string>, lic: string, name: string)
    ensures multiset(Tracked(names, licenses, lic, |licenses|))[name] == Namesakes(names, licenses, lic, name, |licenses|)
  {
    var where, at := (i: nat) => Carries(names, licenses, lic, i), (i: nat) => NameAt(names, i);
    TrackedIsGathered(names, licenses, lic, |licenses|);
    GatherCounts(|licenses|, where, at, name);
    HowManySame(|licenses|, (i: nat) => where(i) && at(i) == name, (i: nat) => Carries(names, licenses, lic, i) && IsCalled(names, i, name));
  }

  /** Keeping what the predicate says splits the packages as the predicate says. */
  lemma KeptSplit(r: Result, names: seq<string>, licenses: seq<string>, lic: string, exempt: string -> bool, violates: string -> bool,
                  exempts: string -> bool)
    requires forall name :: (exempt(name) <==> exempts(name)) && (violates(name) <==> !exempts(name))
    requires r.exempted == Keep(Tracked(names, licenses, lic, |licenses|), exempt)
    requires r.nonCompliant == Keep(Tracked(names, licenses, lic, |licenses|), violates)
    ensures SplitAs(r, names, licenses, lic, exempts)
  {
    var tracked := Tracked(names, licenses, lic, |licenses|);
    forall name
      ensures multiset(r.exempted)[name] == if exempts(name) then Namesakes(names, licenses, lic, name, |licenses|) else 0
      ensures multiset(r.nonCompliant)[name] == if exempts(name) then 0 else Namesakes(names, licenses, lic, name, |licenses|)
    {
      KeepCounts(tracked, exempt, name);
      KeepCounts(tracked, violates, name);
      TrackedNamesakes(names, licenses, lic, name);
    }
  }

  lemma BlanketAccounts(r: Result, names: seq<string>, licenses: seq<string>, lic: string)
    requires r.exempted == Tracked(names, licenses, lic, |licenses|) && r.nonCompliant == []
    ensures SplitAs(r, names, licenses, lic, name => true)
  {
    forall name ensures multiset(r.exempted)[name] == Namesakes(names, licenses, lic, name, |licenses|) {
      TrackedNamesakes(names, licenses, lic, name);
    }
  }

  lemma FreshAccounts(names: seq<string>, licenses: seq<string>, lic: string, category: Category,
                      exceptions: Option<Decider>, project: Option<string>)
    ensures Accounts(Fresh(lic, Tracked(names, licenses, lic, |licenses|), category, exceptions, project),
                     names, licenses, lic, category, exceptions, project)
  {
    var r := Fresh(lic, Tracked(names, licenses, lic, |licenses|), category, exceptions, project);
    TrackedCarriers(names, licenses, lic);
    if BlanketExemption(exceptions, lic).Some? {
      BlanketAccounts(r, names, licenses, lic);
    } else if category != Permissive {
      KeptSplit(r, names, licenses, lic, IsExemptHere(exceptions, lic, project), IsViolationHere(exceptions, lic, project),
                name => exceptions.Some? && exceptions.value(name, lic, project).Some?);
    }
  }

  lemma SomeCarries(names: seq<string>, licenses: seq<string>, lic: string)
    ensures Tracked(names, licenses, lic, |licenses|) != [] <==> exists i :: Carries(names, licenses, lic, i)
  {
    var where := (i: nat) => Carries(names, licenses, lic, i);
    TrackedIsGathered(names, licenses, lic, |licenses|);
    GatherSome(|licenses|, where, (i: nat) => NameAt(names, i));
    if i :| Carries(names, licenses, lic, i) { assert where(i); }
    if i: nat :| i < |licenses| && where(i) { assert Carries(names, licenses, lic, i); }
  }

  lemma AggregateAccounts(agg: map<string, Result>, names: seq<string>, licenses: seq<string>, exceptions: Option<Decider>,
                          project: Option<string>, categorize: string -> Category)
    requires Aggregates(agg, names, licenses, |licenses|, FreshBy(categorize, exceptions, project))
    ensures AccountsForAll(agg, names, licenses, exceptions, project, categorize)
  {
    forall lic ensures lic in agg <==> exists i :: Carries(names, licenses, lic, i) { SomeCarries(names, licenses, lic); }
    forall lic | lic in agg ensures Accounts(agg[lic], names, licenses, lic, categorize(lic), exceptions, project) {
      FreshAccounts(names, licenses, lic, categorize(lic), exceptions, project);
    }
  }

  /** One license per key of the aggregate; the source lists them in map order. */
  method CheckWithExceptions(names: seq<string>, licenses: seq<string>, exceptions: Option<Decider>,
                             project: Option<string>, categorize: string -> Category)
    returns (agg: map<string, Result>)
    ensures Aggregates(agg, names, licenses, |licenses|, FreshBy(categorize, exceptions, project))
    ensures AccountsForAll(agg, names, licenses, exceptions, project, categorize)
  {
    agg := map[];
    for i := 0 to |licenses|
      invariant Aggregates(agg, names, licenses, i, FreshBy(categorize, exceptions, project))
    {
      agg := CountInto(agg, names, licenses, i, exceptions, project, categorize);
    }
    AggregateAccounts(agg, names, licenses, exceptions, project, categorize);
  }

  // ---------------------------------------------------------------------
  // Re-evaluation
  // ---------------------------------------------------------------------

  function Reevaluated(r: Result, exceptions: Option<Decider>, project: string): Result {
    var names := r.nonCompliant + r.exempted;
    match BlanketExemption(exceptions, r.licenseId)
    case Some(reason) => Result(r.licenseId, r.category, r.packageCount, [], names, reason)
    case None =>
      if r.category == Permissive then Result(r.licenseId, r.category, r.packageCount, [], [], "")
      else Result(r.licenseId, r.category, r.packageCount,
                  Keep(names, IsViolationHere(exceptions, r.licenseId, Some(project))),
                  Keep(names, IsExemptHere(exceptions, r.licenseId, Some(project))), "")
  }

  method Reevaluate(r: Result, exceptions: Option<Decider>, project: string) returns (out: Result)
    ensures out == Reevaluated(r, exceptions, project)
  {
    var names := r.nonCompliant + r.exempted;
    out := Result(r.licenseId, r.category, r.packageCount, [], [], "");
    if exceptions.Some? {
      var exempt := Exempt(exceptions, "", r.licenseId, None);
      if exempt.Some? {
        return out.(exempted := names, reason := exempt.value);
      }
    }
    if r.category == Permissive { return; }
    var violations, exempted := [], [];
    for i := 0 to |names|
      invariant violations == Keep(names[..i], IsViolationHere(exceptions, r.licenseId, Some(project)))
      invariant exempted == Keep(names[..i], IsExemptHere(exceptions, r.licenseId, Some(project)))
    {
      assert names[..i + 1][..i] == names[..i];
      var exempt := Exempt(exceptions, names[i], r.licenseId, Some(project));
      if exempt.Some? { exempted := exempted + [names[i]]; } else { violations := violations + [names[i]]; }
    }
    assert names[..|names|] == names;
    out := out.(nonCompliant := violations, exempted := exempted);
  }

  // ---------------------------------------------------------------------
  // Comparing outcomes
  // ---------------------------------------------------------------------

  /** The same reason and the same packages in each list, in any order. */
  predicate SameOutcome(a: Result, b: Result) {
    && a.reason == b.reason
    && multiset(a.nonCompliant) == multiset(b.nonCompliant)
    && multiset(a.exempted) == multiset(b.exempted)
  }

  lemma SortedCopiesDecide(a: seq<string>, b: seq<string>)
    ensures |Sort(a)| == |a|
    ensures Sort(a) == Sort(b) <==> multiset(a) == multiset(b)
  {
    SortSorts(a);
    SortSorts(b);
    assert |multiset(Sort(a))| == |Sort(a)| && |multiset(a)| == |a|;
    if multiset(a) == multiset(b) { SortedUnique(Sort(a), Sort(b)); }
  }

  /** Sorts copies of both lists and compares them element by element. */
  method SameMultiset(a: seq<string>, b: seq<string>) returns (same: bool)
    ensures same <==> multiset(a) == multiset(b)
  {
    SortedCopiesDecide(a, b);
    SortedCopiesDecide(b, a);
    var x, y := Sort(a), Sort(b);
    if |a| != |b| { return false; }
    for i := 0 to |x|
      invariant forall k :: 0 <= k < i ==> x[k] == y[k]
    {
      if x[i] != y[i] { return false; }
    }
    same := true;
  }

  method CompareOutcomes(a: Result, b: Result) returns (same: bool)
    ensures same <==> SameOutcome(a, b)
  {
    if a.reason != b.reason { return false; }
    same := SameMultiset(a.nonCompliant, b.nonCompliant);
    if same { same := SameMultiset(a.exempted, b.exempted); }
  }

  // ---------------------------------------------------------------------
  // Re-evaluation equals a fresh check
  // ---------------------------------------------------------------------

  /** The stored lists are, together, the packages tracked for the license. */
  ghost predicate Stores(r: Result, lic: string, category: Category, tracked: seq<string>) {
    && r.licenseId == lic && r.category == category
    && multiset(r.nonCompliant + r.exempted) == multiset(tracked)
  }

  lemma FreshStores(lic: string, tracked: seq<string>, category: Category, e: Option<Decider>, project: Option<string>)
    requires category != Permissive || BlanketExemption(e, lic).Some?
    ensures Stores(Fresh(lic, tracked, category, e, project), lic, category, tracked)
  {
    SplitConserves(tracked, e, lic, project);
    assert [] + tracked == tracked;
  }

  /** From any result that stores the tracked packages, re-evaluation gives what
      a fresh check would, and stores them again. */
  lemma ReevaluatedIsFresh(r: Result, lic: string, category: Category, tracked: seq<string>, e: Option<Decider>, project: string)
    requires Stores(r, lic, category, tracked)
    ensures SameOutcome(Reevaluated(r, e, project), Fresh(lic, tracked, category, e, Some(project)))
    ensures category != Permissive ==> Stores(Reevaluated(r, e, project), lic, category, tracked)
  {
    var names := r.nonCompliant + r.exempted;
    if BlanketExemption(e, lic).Some? {
      assert [] + names == names;
    } else if category != Permissive {
      KeepPermutes(names, tracked, IsViolationHere(e, lic, Some(project)));
      KeepPermutes(names, tracked, IsExemptHere(e, lic, Some(project)));
      SplitConserves(names, e, lic, Some(project));
    }
  }

  /** Re-evaluating a stored result under other rules has the outcome of a fresh
      check, except for one case: a permissive license whose packages were not
      recorded because only the new rules hold a blanket exception for it. */
  lemma ReevaluateEqualsFresh(lic: string, tracked: seq<string>, category: Category,
                              before: Option<Decider>, after: Option<Decider>, project: string)
    ensures SameOutcome(Reevaluated(Fresh(lic, tracked, category, before, Some(project)), after, project),
                        Fresh(lic, tracked, category, after, Some(project)))
            <==>
            !(category == Permissive && tracked != []
              && BlanketExemption(before, lic).None? && BlanketExemption(after, lic).Some?)
  {
    var stored := Fresh(lic, tracked, category, before, Some(project));
    if category != Permissive || BlanketExemption(before, lic).Some? {
      FreshStores(lic, tracked, category, before, Some(project));
      ReevaluatedIsFresh(stored, lic, category, tracked, after, project);
    } else {
      assert |multiset(tracked)| == |tracked|;
    }
  }

  /** A license is permissive and no rule exempts it; then rules exempt it as a
      whole. A fresh check lists its package as exempted, re-evaluation does not. */
  lemma LateBlanketIsMissed(project: string)
    ensures var after := Some((name: string, lic: string, p: Option<string>) => Some("Blanket exception: b1"));
            !SameOutcome(Reevaluated(Fresh("MIT", ["left-pad"], Permissive, None, Some(project)), after, project),
                         Fresh("MIT", ["left-pad"], Permissive, after, Some(project)))
  {
    var after := Some((name: string, lic: string, p: Option<string>) => Some("Blanket exception: b1"));
    ReevaluateEqualsFresh("MIT", ["left-pad"], Permissive, None, after, project);
  }

  /** Re-evaluation after each of a series of rule changes. */
  function ReevaluatedChain(r: Result, changes: seq<Option<Decider>>, project: string): Result {
    if changes == [] then r
    else Reevaluated(ReevaluatedChain(r, changes[..|changes| - 1], project), changes[|changes| - 1], project)
  }

  lemma {:induction false} ChainStores(r: Result, lic: string, category: Category, tracked: seq<string>,
                                       changes: seq<Option<Decider>>, project: string)
    requires Stores(r, lic, category, tracked) && category != Permissive
    ensures Stores(ReevaluatedChain(r, changes, project), lic, category, tracked)
  {
    if changes != [] {
      var n := |changes| - 1;
      ChainStores(r, lic, category, tracked, changes[..n], project);
      ReevaluatedIsFresh(ReevaluatedChain(r, changes[..n], project), lic, category, tracked, changes[n], project);
    }
  }

  /** However often the rules changed, the stored outcome of a license that can
      be violated is that of a fresh check under the latest rules. */
  lemma ChainEqualsFresh(lic: string, tracked: seq<string>, category: Category, before: Option<Decider>,
                         changes: seq<Option<Decider>>, project: string)
    requires category != Permissive && changes != []
    ensures SameOutcome(ReevaluatedChain(Fresh(lic, tracked, category, before, Some(project)), changes, project),
                        Fresh(lic, tracked, category, changes[|changes| - 1], Some(project)))
    ensures var r := ReevaluatedChain(Fresh(lic, tracked, category, before, Some(project)), changes, project);
            multiset(r.nonCompliant + r.exempted) == multiset(tracked)
  {
    var n := |changes| - 1;
    var stored := Fresh(lic, tracked, category, before, Some(project));
    FreshStores(lic, tracked, category, before, Some(project));
    ChainStores(stored, lic, category, tracked, changes[..n], project);
    ReevaluatedIsFresh(ReevaluatedChain(stored, changes[..n], project), lic, category, tracked, changes[n], project);
  }

  lemma SplitTwice(names: seq<string>, v: string -> bool, x: string -> bool)
    requires forall n :: v(n) <==> !x(n)
    ensures Keep(Keep(names, v) + Keep(names, x), v) == Keep(names, v)
    ensures Keep(Keep(names, v) + Keep(names, x), x) == Keep(names, x)
  {
    KeepTwice(names, v);
    KeepTwice(names, x);
    KeepNone(Keep(names, x), v);
    KeepNone(Keep(names, v), x);
    KeepConcat(Keep(names, v), Keep(names, x), v);
    KeepConcat(Keep(names, v), Keep(names, x), x);
  }

  /** A second re-evaluation under the same rules changes nothing. */
  lemma ReevaluateIdempotent(r: Result, e: Option<Decider>, project: string)
    ensures Reevaluated(Reevaluated(r, e, project), e, project) == Reevaluated(r, e, project)
  {
    var once := Reevaluated(r, e, project);
    if BlanketExemption(e, r.licenseId).Some? {
      assert once.nonCompliant + once.exempted == once.exempted;
    } else if r.category != Permissive {
      SplitTwice(r.nonCompliant + r.exempted, IsViolationHere(e, r.licenseId, Some(project)),
                 IsExemptHere(e, r.licenseId, Some(project)));
    }
  }

  // ---------------------------------------------------------------------
  // The rules file
  // ---------------------------------------------------------------------

  /** Names and rules of which no two pairs share an index key. */
  predicate NulFreeAll(file: File, names: seq<string>) {
    (forall n :: n in names ==> NulFree(n)) && forall r :: r in file.rules ==> NulFree(r.package)
  }

  lemma KeepMembers(names: seq<string>, keep: string -> bool, x: string)
    ensures x in Keep(names, keep) <==> x in names && keep(x)
  {
    KeepCounts(names, keep, x);
    assert x in Keep(names, keep) <==> multiset(Keep(names, keep))[x] > 0;
    assert x in names <==> multiset(names)[x] > 0;
  }

  /** Whether a whole license is exempt asks for a package without a name, which
      no rule for a package covers. */
  lemma BlanketUnderRules(file: File, idx: Index, lic: string)
    requires Indexes(idx, file) && forall r :: r in file.rules ==> NulFree(r.package)
    ensures BlanketExemption(Some(DeciderOf(idx)), lic).Some? <==> BlanketCovers(file, lic)
  {
    NulFreeNamesAgree(idx, file, "", lic, None);
    assert forall r :: r in file.rules ==> !RuleCovers(r, "", lic, None);
  }

  lemma SplitUnderRules(file: File, idx: Index, names: seq<string>, lic: string, project: Option<string>, name: string)
    requires Indexes(idx, file) && NulFreeAll(file, names) && name in names
    ensures name in Keep(names, IsExemptHere(Some(DeciderOf(idx)), lic, project)) <==> Covered(file, name, lic, project)
    ensures name in Keep(names, IsViolationHere(Some(DeciderOf(idx)), lic, project)) <==> !Covered(file, name, lic, project)
  {
    KeepMembers(names, IsExemptHere(Some(DeciderOf(idx)), lic, project), name);
    KeepMembers(names, IsViolationHere(Some(DeciderOf(idx)), lic, project), name);
    NulFreeNamesAgree(idx, file, name, lic, project);
  }

  /** Both lists of an outcome are what an approved rule of the file covers, and the rest. */
  ghost predicate SplitsBy(file: File, r: Result, project: Option<string>, names: seq<string>) {
    forall name :: name in names ==>
      && (name in r.exempted <==> Covered(file, name, r.licenseId, project))
      && (name in r.nonCompliant <==> !Covered(file, name, r.licenseId, project))
  }

  /** A license that can be violated is split by the rules of the file, read one
      by one, when it is checked and again whenever it is re-evaluated. */
  lemma OutcomesFollowRules(file: File, idx: Index, lic: string, tracked: seq<string>, category: Category,
                            before: Option<Decider>, project: string)
    requires Indexes(idx, file) && NulFreeAll(file, tracked) && category != Permissive
    ensures SplitsBy(file, Fresh(lic, tracked, category, Some(DeciderOf(idx)), Some(project)), Some(project), tracked)
    ensures SplitsBy(file, Reevaluated(Fresh(lic, tracked, category, before, Some(project)), Some(DeciderOf(idx)), project),
                     Some(project), tracked)
  {
    var checked := Fresh(lic, tracked, category, Some(DeciderOf(idx)), Some(project));
    var again := Reevaluated(Fresh(lic, tracked, category, before, Some(project)), Some(DeciderOf(idx)), project);
    FreshFollowsRules(file, idx, lic, tracked, category, project);
    ReevaluateEqualsFresh(lic, tracked, category, before, Some(DeciderOf(idx)), project);
    forall name | name in tracked
      ensures name in again.exempted <==> Covered(file, name, lic, Some(project))
      ensures name in again.nonCompliant <==> !Covered(file, name, lic, Some(project))
    {
      assert name in multiset(again.exempted) <==> name in multiset(checked.exempted);
      assert name in multiset(again.nonCompliant) <==> name in multiset(checked.nonCompliant);
    }
  }

  lemma FreshFollowsRules(file: File, idx: Index, lic: string, tracked: seq<string>, category: Category, project: string)
    requires Indexes(idx, file) && NulFreeAll(file, tracked) && category != Permissive
    ensures SplitsBy(file, Fresh(lic, tracked, category, Some(DeciderOf(idx)), Some(project)), Some(project), tracked)
  {
    BlanketUnderRules(file, idx, lic);
    forall name | name in tracked
      ensures name in Fresh(lic, tracked, category, Some(DeciderOf(idx)), Some(project)).exempted <==> Covered(file, name, lic, Some(project))
      ensures name in Fresh(lic, tracked, category, Some(DeciderOf(idx)), Some(project)).nonCompliant <==> !Covered(file, name, lic, Some(project))
    {
      SplitUnderRules(file, idx, tracked, lic, Some(project), name);
    }
  }

  // ---------------------------------------------------------------------
  // The recheck job over the stored rows
  // ---------------------------------------------------------------------

  datatype RowKey = RowKey(sbomId: string, licenseId: string)

  /** A stored row joined with the document name of its SBOM. */
  datatype StoredRow = StoredRow(result: Result, documentName: string)

  type Rows = map<RowKey, StoredRow>

  type Items = seq<(RowKey, StoredRow)>

  const RecheckBatchSize := 10000

  /** The row a recheck leaves: rewritten only when its outcome changes. */
  function Rechecked(row: StoredRow, e: Option<Decider>): StoredRow {
    var next := Reevaluated(row.result, e, row.documentName);
    if SameOutcome(row.result, next) then row
    else row.(result := row.result.(nonCompliant := next.nonCompliant, exempted := next.exempted, reason := next.reason))
  }

  /** Later items replace the rows of their key. */
  function Upserted(rows: Rows, items: Items): Rows {
    if items == [] then rows
    else Upserted(rows, items[..|items| - 1])[items[|items| - 1].0 := items[|items| - 1].1]
  }

  /** What a complete recheck leaves. */
  function RecheckedAll(rows: Rows, e: Option<Decider>): Rows {
    map key | key in rows :: Rechecked(rows[key], e)
  }

  /** Every listed item is its key's row in goal. */
  ghost predicate From(goal: Rows, items: Items) {
    forall i :: 0 <= i < |items| ==> items[i].0 in goal && items[i].1 == goal[items[i].0]
  }

  /** Rows are as before or as in goal; those of the first k items are as in goal. */
  ghost predicate Progress(before: Rows, goal: Rows, rows: Rows, items: Items, k: nat)
    requires k <= |items|
  {
    && rows.Keys == before.Keys == goal.Keys
    && (forall key :: key in before ==> rows[key] == before[key] || rows[key] == goal[key])
    && (forall i :: 0 <= i < k && items[i].0 in before ==> rows[items[i].0] == goal[items[i].0])
  }

  lemma ProgressNext(before: Rows, goal: Rows, rows: Rows, items: Items, k: nat)
    requires k < |items| && From(goal, items) && Progress(before, goal, rows, items, k)
    ensures Progress(before, goal, rows[items[k].0 := items[k].1], items, k + 1)
  {
    assert items[k].0 in goal && items[k].1 == goal[items[k].0];
  }

  lemma {:induction false} ChunkProgresses(before: Rows, goal: Rows, rows: Rows, items: Items, k: nat, chunk: Items)
    requires From(goal, items) && k + |chunk| <= |items| && Progress(before, goal, rows, items, k)
    requires forall j :: 0 <= j < |chunk| ==> chunk[j] == items[k + j]
    ensures Progress(before, goal, Upserted(rows, chunk), items, k + |chunk|)
  {
    if chunk != [] {
      var m := |chunk| - 1;
      ChunkProgresses(before, goal, rows, items, k, chunk[..m]);
      ProgressNext(before, goal, Upserted(rows, chunk[..m]), items, k + m);
    }
  }

  /** A batch brings its rows to the goal and takes none away from it. */
  lemma UpsertProgresses(before: Rows, goal: Rows, rows: Rows, items: Items, k: nat, n: nat)
    requires k <= n <= |items| && From(goal, items) && Progress(before, goal, rows, items, k)
    ensures Progress(before, goal, Upserted(rows, items[k..n]), items, n)
  {
    ChunkProgresses(before, goal, rows, items, k, items[k..n]);
  }

  ghost function KeysOf(items: Items): set<RowKey> {
    set i | 0 <= i < |items| :: items[i].0
  }

  lemma KeysOfNext(goal: Rows, items: Items, key: RowKey, row: StoredRow)
    requires From(goal, items) && key in goal && row == goal[key]
    ensures From(goal, items + [(key, row)]) && KeysOf(items + [(key, row)]) == KeysOf(items) + {key}
  {
    var after := items + [(key, row)];
    assert forall i :: 0 <= i < |items| ==> after[i] == items[i];
    assert after[|items|] == (key, row);
    forall k ensures k in KeysOf(after) <==> k in KeysOf(items) + {key} {
      if k in KeysOf(items) {
        var i :| 0 <= i < |items| && items[i].0 == k;
        assert after[i].0 == k;
      }
    }
  }

  /** The rewritten row, when its outcome changes. */
  method RecheckRow(row: StoredRow, e: Option<Decider>) returns (changed: Option<StoredRow>)
    ensures Rechecked(row, e) == if changed.Some? then changed.value else row
  {
    var next := Reevaluate(row.result, e, row.documentName);
    var same := CompareOutcomes(row.result, next);
    if same { return None; }
    var m := row.result.(nonCompliant := next.nonCompliant, exempted := next.exempted, reason := next.reason);
    changed := Some(row.(result := m));
  }

  /** license_compliance: one current row per SBOM and license. */
  class ComplianceStore {
    var rows: Rows

    method InsertLicenseCompliance(items: Items, fails: bool) returns (ok: bool)
      modifies this
      ensures ok == !fails
      ensures rows == if ok then Upserted(old(rows), items) else old(rows)
    {
      if fails { return false; }
      for i := 0 to |items|
        invariant rows == Upserted(old(rows), items[..i])
      {
        assert items[..i + 1][..i] == items[..i];
        rows := rows[items[i].0 := items[i].1];
      }
      assert items[..|items|] == items;
      ok := true;
    }

    /** The rows whose outcome changes, in the order the cursor yields them. */
    method CollectChanged(e: Option<Decider>, ghost goal: Rows) returns (changed: Items)
      requires goal == RecheckedAll(rows, e)
      ensures From(goal, changed)
      ensures forall key :: key in rows && key !in KeysOf(changed) ==> rows[key] == goal[key]
    {
      changed := [];
      var left := rows.Keys;
      while left != {}
        invariant left <= rows.Keys && From(goal, changed)
        invariant forall key :: key in rows && key !in left && key !in KeysOf(changed) ==> rows[key] == goal[key]
      {
        var key :| key in left;
        var row := RecheckRow(rows[key], e);
        if row.Some? {
          KeysOfNext(goal, changed, key, row.value);
          changed := changed + [(key, row.value)];
        }
        left := left - {key};
      }
    }

    /** Re-evaluates every stored row and writes the changed ones in batches. A
        failing batch stops the job with part of the rows rewritten. */
    method ProcessRecheck(e: Option<Decider>, fails: nat -> bool) returns (ok: bool)
      modifies this
      ensures rows.Keys == old(rows).Keys
      ensures forall key :: key in rows ==> rows[key] == old(rows)[key] || rows[key] == Rechecked(old(rows)[key], e)
      ensures ok ==> forall key :: key in rows ==> rows[key] == Rechecked(old(rows)[key], e)
    {
      ghost var before, goal := rows, RecheckedAll(rows, e);
      var changed := CollectChanged(e, goal);
      var start, batch := 0, 0;
      while start < |changed|
        invariant 0 <= start <= |changed| && Progress(before, goal, rows, changed, start)
      {
        var end := if start + RecheckBatchSize < |changed| then start + RecheckBatchSize else |changed|;
        ghost var now := rows;
        var sent := InsertLicenseCompliance(changed[start..end], fails(batch));
        if !sent { return false; }
        UpsertProgresses(before, goal, now, changed, start, end);
        start, batch := end, batch + 1;
      }
      ok := true;
    }
  }
}
