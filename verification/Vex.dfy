/** VEX statements and the SBOMs they speak about (cmd/parsing-worker/vex_scope.go,
    vex_rescue.go and processVEXJob, internal/clickhouse/vex_scope.go and
    vex_rescue.go): scoping at ingest, and the rescue of statements that arrived
    before their SBOM. */
module Vex {
  import opened Text

  datatype Statement = Statement(
    vexId: string, documentId: string, vulnId: string, details: string,
    productRef: string, productPurl: string, productWide: bool, sbomId: string)

  const ProductWidePurl := "*"

  /** The sorting key of vex_statements: a later row replaces one of equal key. */
  datatype Key = Key(vulnId: string, productPurl: string, vexId: string)

  function KeyOf(s: Statement): Key {
    Key(s.vulnId, s.productPurl, s.vexId)
  }

  type Table = map<Key, Statement>

  datatype Sbom = Sbom(id: string, sourceRepo: string, namespace: string, name: string)

  // ---------------------------------------------------------------------
  // Resolving a product
  // ---------------------------------------------------------------------

  predicate NamedBy(sbom: Sbom, ref: string) {
    || sbom.id == ref
    || (sbom.sourceRepo != "" && sbom.sourceRepo == ref)
    || (sbom.namespace != "" && sbom.namespace == ref)
    || (sbom.name != "" && sbom.name == ref)
  }

  /** The newest SBOM a reference names; SBOMs are listed newest first. */
  function Lookup(sboms: seq<Sbom>, ref: string): string {
    if ref == "" || sboms == [] then ""
    else if NamedBy(sboms[0], ref) then sboms[0].id
    else Lookup(sboms[1..], ref)
  }

  /** A lookup that may fail, which counts as no match. */
  function TryLookup(sboms: seq<Sbom>, fails: set<string>, ref: string): string {
    if ref in fails then "" else Lookup(sboms, ref)
  }

  /** Looks the reference up, then its normalised repository form. */
  function Resolve(sboms: seq<Sbom>, norm: string -> string, fails: set<string>, ref: string): string {
    if ref == "" then ""
    else
      var direct := TryLookup(sboms, fails, ref);
      if direct != "" || norm(ref) == "" || norm(ref) == ref then direct else TryLookup(sboms, fails, norm(ref))
  }

  function Scoped(s: Statement, sbomId: string): Statement {
    if sbomId == "" then s
    else s.(sbomId := sbomId, productPurl := if s.productWide then ProductWidePurl else s.productPurl)
  }

  /** What scoping makes of one statement. */
  function ScopeOne(sboms: seq<Sbom>, norm: string -> string, fails: set<string>, target: string, s: Statement): Statement {
    Scoped(s, if target != "" then target else Resolve(sboms, norm, fails, s.productRef))
  }

  // ---------------------------------------------------------------------
  // Scoping, in the fields of the rows
  // ---------------------------------------------------------------------

  /** ref is the SBOM's id, its repository, its namespace or its name. */
  predicate Carries(b: Sbom, ref: string) {
    b.id == ref || b.sourceRepo == ref || b.namespace == ref || b.name == ref
  }

  ghost predicate NewestCarrying(sboms: seq<Sbom>, ref: string, j: nat) {
    j < |sboms| && Carries(sboms[j], ref) && forall k :: 0 <= k < j ==> !Carries(sboms[k], ref)
  }

  ghost predicate Carried(sboms: seq<Sbom>, fails: set<string>, ref: string) {
    ref != "" && ref !in fails && exists j: nat :: NewestCarrying(sboms, ref, j)
  }

  /** The statement now speaks of this SBOM: of all its components if it names no
      part of the product. */
  predicate BelongsTo(before: Statement, after: Statement, id: string) {
    && after.vexId == before.vexId && after.documentId == before.documentId && after.vulnId == before.vulnId
    && after.details == before.details && after.productRef == before.productRef && after.productWide == before.productWide
    && after.sbomId == id && after.productPurl == if before.productWide then "*" else before.productPurl
  }

  /** A statement goes to the explicit target, to the newest SBOM that carries its
      reference, else to the newest that carries the normalised reference, else
      it stays as it was. */
  ghost predicate ProductFound(sboms: seq<Sbom>, norm: string -> string, fails: set<string>, target: string,
                               before: Statement, after: Statement) {
    var ref := before.productRef;
    if target != "" then BelongsTo(before, after, target)
    else if Carried(sboms, fails, ref) then exists j: nat :: NewestCarrying(sboms, ref, j) && BelongsTo(before, after, sboms[j].id)
    else if ref != "" && norm(ref) != ref && Carried(sboms, fails, norm(ref)) then
      exists j: nat :: NewestCarrying(sboms, norm(ref), j) && BelongsTo(before, after, sboms[j].id)
    else after == before
  }

  lemma {:induction false} LookupIsNewest(sboms: seq<Sbom>, ref: string)
    requires ref != "" && forall b :: b in sboms ==> b.id != ""
    ensures Lookup(sboms, ref) == "" ==> forall j: nat :: !NewestCarrying(sboms, ref, j)
    ensures Lookup(sboms, ref) != "" ==> exists j: nat :: NewestCarrying(sboms, ref, j) && sboms[j].id == Lookup(sboms, ref)
  {
    if sboms != [] {
      if NamedBy(sboms[0], ref) {
        assert NewestCarrying(sboms, ref, 0);
      } else {
        var rest := sboms[1..];
        LookupIsNewest(rest, ref);
        if Lookup(rest, ref) != "" {
          var j: nat :| NewestCarrying(rest, ref, j) && rest[j].id == Lookup(rest, ref);
          assert NewestCarrying(sboms, ref, j + 1);
        } else {
          forall j: nat ensures !NewestCarrying(sboms, ref, j) {
            assert j > 0 ==> !NewestCarrying(rest, ref, j - 1);
          }
        }
      }
    }
  }

  lemma OneNewest(sboms: seq<Sbom>, ref: string, i: nat, j: nat)
    requires NewestCarrying(sboms, ref, i) && NewestCarrying(sboms, ref, j)
    ensures i == j
  {
  }

  lemma TryLookupIsNewest(sboms: seq<Sbom>, fails: set<string>, ref: string)
    requires ref != "" && forall b :: b in sboms ==> b.id != ""
    ensures Carried(sboms, fails, ref) <==> TryLookup(sboms, fails, ref) != ""
    ensures forall j: nat :: Carried(sboms, fails, ref) && NewestCarrying(sboms, ref, j) ==> sboms[j].id == TryLookup(sboms, fails, ref)
  {
    LookupIsNewest(sboms, ref);
    forall i: nat, j: nat | NewestCarrying(sboms, ref, i) && NewestCarrying(sboms, ref, j) ensures i == j { OneNewest(sboms, ref, i, j); }
  }

  lemma ScopingFindsProduct(sboms: seq<Sbom>, norm: string -> string, fails: set<string>, target: string, s: Statement)
    requires forall b :: b in sboms ==> b.id != ""
    ensures ProductFound(sboms, norm, fails, target, s, ScopeOne(sboms, norm, fails, target, s))
  {
    if s.productRef != "" {
      TryLookupIsNewest(sboms, fails, s.productRef);
      if norm(s.productRef) != "" { TryLookupIsNewest(sboms, fails, norm(s.productRef)); }
    }
  }

  ghost predicate ProductsFound(sboms: seq<Sbom>, norm: string -> string, fails: set<string>, target: string,
                                before: seq<Statement>, after: seq<Statement>) {
    |before| == |after| && forall i :: 0 <= i < |before| ==> ProductFound(sboms, norm, fails, target, before[i], after[i])
  }

  lemma ScopingFindsProducts(sboms: seq<Sbom>, norm: string -> string, fails: set<string>, target: string,
                             before: seq<Statement>, after: seq<Statement>)
    requires |before| == |after|
    requires forall i :: 0 <= i < |before| ==> after[i] == ScopeOne(sboms, norm, fails, target, before[i])
    ensures (forall b :: b in sboms ==> b.id != "") ==> ProductsFound(sboms, norm, fails, target, before, after)
  {
    if forall b :: b in sboms ==> b.id != "" {
      forall i | 0 <= i < |before| ensures ProductFound(sboms, norm, fails, target, before[i], after[i]) {
        ScopingFindsProduct(sboms, norm, fails, target, before[i]);
      }
    }
  }

  /** An explicit target goes to every statement. */
  method ScopeToTarget(target: string, stmts: array<Statement>)
    requires target != ""
    modifies stmts
    ensures forall i :: 0 <= i < stmts.Length ==> stmts[i] == Scoped(old(stmts[i]), target)
  {
    for i := 0 to stmts.Length
      invariant forall k :: 0 <= k < i ==> stmts[k] == Scoped(old(stmts[k]), target)
      invariant forall k :: i <= k < stmts.Length ==> stmts[k] == old(stmts[k])
    {
      stmts[i] := stmts[i].(sbomId := target);
      if stmts[i].productWide { stmts[i] := stmts[i].(productPurl := ProductWidePurl); }
    }
  }

  method ResolveOnce(sboms: seq<Sbom>, norm: string -> string, fails: set<string>, ref: string) returns (id: string)
    requires ref != ""
    ensures id == Resolve(sboms, norm, fails, ref)
  {
    id := TryLookup(sboms, fails, ref);
    if id == "" && norm(ref) != "" && norm(ref) != ref { id := TryLookup(sboms, fails, norm(ref)); }
  }

  /** Scopes every statement in place, resolving each product reference once. */
  method ScopeVEXStatements(sboms: seq<Sbom>, norm: string -> string, fails: set<string>, target: string, stmts: array<Statement>)
    modifies stmts
    ensures forall i :: 0 <= i < stmts.Length ==> stmts[i] == ScopeOne(sboms, norm, fails, target, old(stmts[i]))
    ensures (forall b :: b in sboms ==> b.id != "") ==> ProductsFound(sboms, norm, fails, target, old(stmts[..]), stmts[..])
  {
    ghost var before := stmts[..];
    if target != "" {
      ScopeToTarget(target, stmts);
      ScopingFindsProducts(sboms, norm, fails, target, before, stmts[..]);
      return;
    }
    var cache: map<string, string> := map[];
    for i := 0 to stmts.Length
      invariant forall ref :: ref in cache ==> cache[ref] == Resolve(sboms, norm, fails, ref)
      invariant forall k :: 0 <= k < i ==> stmts[k] == ScopeOne(sboms, norm, fails, "", old(stmts[k]))
      invariant forall k :: i <= k < stmts.Length ==> stmts[k] == old(stmts[k])
    {
      var ref := stmts[i].productRef;
      if ref != "" {
        if ref !in cache {
          var id := ResolveOnce(sboms, norm, fails, ref);
          cache := cache[ref := id];
        }
        if cache[ref] != "" {
          stmts[i] := stmts[i].(sbomId := cache[ref]);
          if stmts[i].productWide { stmts[i] := stmts[i].(productPurl := ProductWidePurl); }
        }
      }
    }
    ScopingFindsProducts(sboms, norm, fails, target, before, stmts[..]);
  }

  // ---------------------------------------------------------------------
  // The table
  // ---------------------------------------------------------------------

  /** product-wide is not stored: it shows in the purl once the statement is scoped. */
  function Stored(s: Statement): Statement {
    s.(productWide := false)
  }

  function InsertAll(t: Table, rows: seq<Statement>): Table {
    if rows == [] then t
    else
      var n := |rows| - 1;
      InsertAll(t, rows[..n])[KeyOf(rows[n]) := Stored(rows[n])]
  }

  function WithoutDocument(t: Table, documentId: string): Table {
    map k | k in t && t[k].documentId != documentId :: t[k]
  }

  function WithoutUnscoped(t: Table, ids: set<string>): Table {
    map k | k in t && !(t[k].sbomId == "" && t[k].vexId in ids) :: t[k]
  }

  /** Rows older than the column carry no reference; their purl stands in. */
  function Ref(s: Statement): string {
    if s.productRef == "" then s.productPurl else s.productRef
  }

  /** An unscoped row as the rescue works on it. */
  function Candidate(row: Statement): Statement {
    row.(productRef := Ref(row), productWide := Ref(row) == row.productPurl)
  }

  /** What the rescue makes of an unscoped row. */
  function Rescued(sboms: seq<Sbom>, norm: string -> string, fails: set<string>, row: Statement): Statement {
    ScopeOne(sboms, norm, fails, "", Candidate(row))
  }

  function RescueRows(sboms: seq<Sbom>, norm: string -> string, fails: set<string>, found: seq<Statement>): seq<Statement> {
    if found == [] then []
    else
      var n := |found| - 1;
      var row := Rescued(sboms, norm, fails, found[n]);
      RescueRows(sboms, norm, fails, found[..n]) + (if row.sbomId == "" then [] else [row])
  }

  /** What a rescue may make of an unscoped row: it goes by its reference, or by its purl
      where it has none, and speaks of the whole product if both are the same. */
  ghost predicate RescuedAs(sboms: seq<Sbom>, norm: string -> string, fails: set<string>, row: Statement, copy: Statement) {
    var ref := if row.productRef == "" then row.productPurl else row.productRef;
    ProductFound(sboms, norm, fails, "", row.(productRef := ref, productWide := ref == row.productPurl), copy)
  }

  lemma RescuedFindsProduct(sboms: seq<Sbom>, norm: string -> string, fails: set<string>, row: Statement)
    requires forall b :: b in sboms ==> b.id != ""
    ensures RescuedAs(sboms, norm, fails, row, Rescued(sboms, norm, fails, row))
  {
    ScopingFindsProduct(sboms, norm, fails, "", Candidate(row));
  }

  lemma {:induction false} RescueRowsAre(sboms: seq<Sbom>, norm: string -> string, fails: set<string>, found: seq<Statement>, x: Statement)
    ensures x in RescueRows(sboms, norm, fails, found) <==>
            x.sbomId != "" && exists row :: row in found && x == Rescued(sboms, norm, fails, row)
  {
    if found != [] {
      var n := |found| - 1;
      assert found == found[..n] + [found[n]];
      RescueRowsAre(sboms, norm, fails, found[..n], x);
    }
  }

  /** The rescued rows are copies of found rows for the product found, and a found row
      whose product is found has its copy among them. */
  ghost predicate AllRescued(sboms: seq<Sbom>, norm: string -> string, fails: set<string>, found: seq<Statement>, rescued: seq<Statement>) {
    && (forall x :: x in rescued ==> x.sbomId != "" && exists row :: row in found && RescuedAs(sboms, norm, fails, row, x))
    && (forall row :: row in found ==> exists x :: RescuedAs(sboms, norm, fails, row, x) && (x in rescued <==> x.sbomId != ""))
  }

  lemma RescueRowsMean(sboms: seq<Sbom>, norm: string -> string, fails: set<string>, found: seq<Statement>)
    requires forall b :: b in sboms ==> b.id != ""
    ensures AllRescued(sboms, norm, fails, found, RescueRows(sboms, norm, fails, found))
  {
    var rescued := RescueRows(sboms, norm, fails, found);
    forall x | x in rescued ensures x.sbomId != "" && exists row :: row in found && RescuedAs(sboms, norm, fails, row, x) {
      RescueRowsAre(sboms, norm, fails, found, x);
      var row :| row in found && x == Rescued(sboms, norm, fails, row);
      RescuedFindsProduct(sboms, norm, fails, row);
    }
    forall row | row in found
      ensures exists x :: RescuedAs(sboms, norm, fails, row, x) && (x in rescued <==> x.sbomId != "")
    {
      var x := Rescued(sboms, norm, fails, row);
      RescuedFindsProduct(sboms, norm, fails, row);
      RescueRowsAre(sboms, norm, fails, found, x);
    }
  }

  function IdsOf(rows: seq<Statement>): set<string> {
    set i | 0 <= i < |rows| :: rows[i].vexId
  }

  predicate HasDocument(t: Table, documentId: string) {
    exists k :: k in t && t[k].documentId == documentId
  }

  predicate HasUnscoped(t: Table, documentId: string) {
    exists k :: k in t && t[k].documentId == documentId && t[k].sbomId == ""
  }

  function ScopeAll(sboms: seq<Sbom>, norm: string -> string, fails: set<string>, target: string, stmts: seq<Statement>): (r: seq<Statement>)
    ensures |r| == |stmts|
  {
    seq(|stmts|, i requires 0 <= i < |stmts| => ScopeOne(sboms, norm, fails, target, stmts[i]))
  }

  /** The table after a VEX job: a document that is present and fully scoped is
      skipped, one with unscoped rows is replaced. */
  function AfterVEXJob(t: Table, sboms: seq<Sbom>, norm: string -> string, fails: set<string>, target: string,
                       documentId: string, stmts: seq<Statement>): Table {
    if HasDocument(t, documentId) && !HasUnscoped(t, documentId) then t
    else InsertAll(WithoutDocument(t, documentId), ScopeAll(sboms, norm, fails, target, stmts))
  }

  /** Which database statement of a VEX job fails, if one does; it has no effect then. */
  datatype Trouble = NoTrouble | ExistsFails | CountFails | DeleteFails | InsertFails

  class VexStore {
    var table: Table
    var sboms: seq<Sbom>

    method QueryUnscopedVEXStatements() returns (found: seq<Statement>)
      ensures forall x :: x in found <==> exists k :: k in table && table[k].sbomId == "" && x == table[k]
    {
      found := [];
      var left := table.Keys;
      while left != {}
        invariant left <= table.Keys
        invariant forall x :: x in found <==> exists k :: k in table && k !in left && table[k].sbomId == "" && x == table[k]
      {
        var k :| k in left;
        if table[k].sbomId == "" { found := found + [table[k]]; }
        left := left - {k};
      }
    }

    method InsertVEXStatements(rows: seq<Statement>, fails: bool) returns (ok: bool)
      modifies this`table
      ensures ok == !fails && table == if ok then InsertAll(old(table), rows) else old(table)
    {
      if fails { return false; }
      for i := 0 to |rows|
        invariant table == InsertAll(old(table), rows[..i])
      {
        assert rows[..i + 1][..i] == rows[..i];
        table := table[KeyOf(rows[i]) := Stored(rows[i])];
      }
      assert rows[..|rows|] == rows;
      ok := true;
    }

    method DeleteUnscopedVEXStatements(ids: set<string>)
      modifies this`table
      ensures forall k :: k in table <==> k in old(table) && (old(table)[k].sbomId != "" || old(table)[k].vexId !in ids)
      ensures forall k :: k in table ==> table[k] == old(table)[k]
      ensures table == WithoutUnscoped(old(table), ids)
    {
      if ids == {} {
        assert WithoutUnscoped(table, ids) == table;
        return;
      }
      table := WithoutUnscoped(table, ids);
    }

    /** Skips a document that is present and fully scoped, replaces one that has
        unscoped rows. A failing existence check counts as absence; a failing
        insert leaves the document deleted. */
    method ProcessVEXJob(norm: string -> string, fails: set<string>, target: string, documentId: string, stmts: seq<Statement>,
                         trouble: Trouble) returns (ok: bool)
      modifies this`table
      ensures trouble.NoTrouble? ==> ok && table == AfterVEXJob(old(table), sboms, norm, fails, target, documentId, stmts)
      ensures ok ==> table == if trouble.ExistsFails? then InsertAll(old(table), ScopeAll(sboms, norm, fails, target, stmts))
                              else AfterVEXJob(old(table), sboms, norm, fails, target, documentId, stmts)
      ensures !ok ==> table == if trouble.InsertFails? then WithoutDocument(old(table), documentId) else old(table)
      ensures ok <==> match trouble
                      case NoTrouble => true
                      case ExistsFails => true
                      case CountFails => !HasDocument(old(table), documentId)
                      case DeleteFails => !HasUnscoped(old(table), documentId)
                      case InsertFails => stmts == [] || (HasDocument(old(table), documentId) && !HasUnscoped(old(table), documentId))
    {
      var replacing := false;
      if !trouble.ExistsFails? && HasDocument(table, documentId) {
        if trouble.CountFails? { return false; }
        if !HasUnscoped(table, documentId) { return true; }
        replacing := true;
      }
      var a := new Statement[|stmts|](i requires 0 <= i < |stmts| => stmts[i]);
      ScopeVEXStatements(sboms, norm, fails, target, a);
      assert a[..] == ScopeAll(sboms, norm, fails, target, stmts);
      if replacing {
        if trouble.DeleteFails? { return false; }
        table := WithoutDocument(table, documentId);
      } else if !trouble.ExistsFails? {
        assert WithoutDocument(table, documentId) == table;
      }
      ok := true;
      if a.Length > 0 { ok := InsertVEXStatements(a[..], trouble.InsertFails?); }
    }

    /** One rescue with nobody else at work: insert the scoped copies, then
        delete the unscoped originals. */
    method RescueUnscopedVEX(norm: string -> string, fails: set<string>, insertFails: bool, deleteFails: bool)
      returns (ghost found: seq<Statement>)
      modifies this`table
      ensures forall x :: x in found <==> exists k :: k in old(table) && old(table)[k].sbomId == "" && x == old(table)[k]
      ensures var rows := RescueRows(sboms, norm, fails, found);
              table == if insertFails then old(table)
                       else if deleteFails then InsertAll(old(table), rows)
                       else WithoutUnscoped(InsertAll(old(table), rows), IdsOf(rows))
    {
      var stmts := QueryUnscopedVEXStatements();
      found := stmts;
      var rescued := CollectRescued(norm, fails, stmts);
      if rescued == [] {
        assert WithoutUnscoped(table, {}) == table;
        return;
      }
      var ok := InsertVEXStatements(rescued, insertFails);
      if !ok || deleteFails { return; }
      DeleteUnscopedVEXStatements(IdsOf(rescued));
    }

    /** The scoped copies of those rows whose product resolves now. */
    method CollectRescued(norm: string -> string, fails: set<string>, found: seq<Statement>) returns (rescued: seq<Statement>)
      ensures rescued == RescueRows(sboms, norm, fails, found)
      ensures (forall b :: b in sboms ==> b.id != "") ==> AllRescued(sboms, norm, fails, found, rescued)
    {
      var a := new Statement[|found|](i requires 0 <= i < |found| => Candidate(found[i]));
      ScopeVEXStatements(sboms, norm, fails, "", a);
      rescued := [];
      for i := 0 to a.Length
        invariant rescued == RescueRows(sboms, norm, fails, found[..i])
      {
        assert found[..i + 1][..i] == found[..i];
        assert a[i] == Rescued(sboms, norm, fails, found[i]);
        if a[i].sbomId != "" { rescued := rescued + [a[i]]; }
      }
      assert found[..|found|] == found;
      if forall b :: b in sboms ==> b.id != "" { RescueRowsMean(sboms, norm, fails, found); }
    }
  }
}
