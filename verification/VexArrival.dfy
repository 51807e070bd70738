/** VEX documents and SBOMs arriving in any order, with rescues in between: what
    every intermediate table keeps, and where all of them end up. Jobs are atomic;
    a rescue reads, looks up row by row, inserts and deletes in steps of its own,
    between which anything may happen, and may crash. */
module VexArrival {
  import opened Text
  import opened Vex

  // ---------------------------------------------------------------------
  // What there is to arrive
  // ---------------------------------------------------------------------

  /** The SBOMs and documents that may arrive. A document is always parsed to the
      same statements and always uploaded with the same target; byId lists the
      statements by vex id. */
  datatype World = World(
    universe: seq<Sbom>, norm: string -> string,
    targets: map<string, string>, docs: map<string, seq<Statement>>, byId: map<string, Statement>)

  predicate Names(norm: string -> string, sbom: Sbom, ref: string) {
    ref != "" && (NamedBy(sbom, ref) || (norm(ref) != "" && norm(ref) != ref && NamedBy(sbom, norm(ref))))
  }

  predicate Parsed(s: Statement) {
    s.sbomId == "" && (s.productWide <==> s.productRef == s.productPurl)
  }

  /** Each product reference names at most one SBOM, and no two statements share
      a vex id. */
  ghost predicate WellFormed(w: World) {
    && (forall b :: b in w.universe ==> b.id != "")
    && (forall a, b, ref :: a in w.universe && b in w.universe && Names(w.norm, a, ref) && Names(w.norm, b, ref) ==> a.id == b.id)
    && (forall d :: d in w.docs ==> d in w.targets)
    && (forall d, s :: d in w.docs && s in w.docs[d] ==> s.vexId in w.byId && w.byId[s.vexId] == s && s.documentId == d)
    && (forall id :: id in w.byId ==>
          && w.byId[id].vexId == id && Parsed(w.byId[id])
          && w.byId[id].documentId in w.docs && w.byId[id] in w.docs[w.byId[id].documentId])
  }

  function Resolved(w: World, ref: string): string {
    Resolve(w.universe, w.norm, {}, ref)
  }

  /** The SBOM a statement belongs to, once every SBOM is there. */
  function Home(w: World, s: Statement): string
    requires s.documentId in w.targets
  {
    if w.targets[s.documentId] != "" then w.targets[s.documentId] else Resolved(w, Ref(s))
  }

  function HomePurl(w: World, s: Statement): string
    requires s.documentId in w.targets
  {
    if Home(w, s) == "" then s.productPurl
    else if w.targets[s.documentId] != "" then (if s.productWide then ProductWidePurl else s.productPurl)
    else if Ref(s) == s.productPurl then ProductWidePurl else s.productPurl
  }

  /** A row that says what the statement says, without a scope. */
  predicate UnscopedCopy(w: World, row: Statement, s: Statement) {
    s.documentId in w.targets && w.targets[s.documentId] == "" && row == s.(productWide := false)
  }

  /** A row that says what the statement says, for the SBOM it belongs to. */
  predicate ScopedCopy(w: World, row: Statement, s: Statement) {
    && s.documentId in w.targets && Home(w, s) != ""
    && row == s.(productWide := false, sbomId := Home(w, s), productPurl := HomePurl(w, s), productRef := row.productRef)
    && (row.productRef == s.productRef || row.productRef == Ref(s))
  }

  function ScopedKey(w: World, s: Statement): Key
    requires s.documentId in w.targets
  {
    Key(s.vulnId, HomePurl(w, s), s.vexId)
  }

  // ---------------------------------------------------------------------
  // Lookups against a growing set of SBOMs
  // ---------------------------------------------------------------------

  ghost predicate Within(sboms: seq<Sbom>, universe: seq<Sbom>) {
    forall b :: b in sboms ==> b in universe
  }

  lemma {:induction false} LookupFinds(sboms: seq<Sbom>, ref: string)
    ensures Lookup(sboms, ref) != "" ==> exists b :: b in sboms && NamedBy(b, ref) && b.id == Lookup(sboms, ref) && ref != ""
    ensures ref != "" && (forall b :: b in sboms ==> b.id != "") && (exists b :: b in sboms && NamedBy(b, ref)) ==> Lookup(sboms, ref) != ""
  {
    if sboms != [] {
      assert sboms == [sboms[0]] + sboms[1..];
      LookupFinds(sboms[1..], ref);
    }
  }

  lemma ResolveFinds(sboms: seq<Sbom>, norm: string -> string, fails: set<string>, ref: string) returns (b: Sbom)
    requires Resolve(sboms, norm, fails, ref) != ""
    ensures b in sboms && Names(norm, b, ref) && b.id == Resolve(sboms, norm, fails, ref)
  {
    LookupFinds(sboms, ref);
    LookupFinds(sboms, norm(ref));
    if TryLookup(sboms, fails, ref) != "" {
      b :| b in sboms && NamedBy(b, ref) && b.id == Lookup(sboms, ref);
    } else {
      b :| b in sboms && NamedBy(b, norm(ref)) && b.id == Lookup(sboms, norm(ref));
    }
  }

  lemma ResolveFound(sboms: seq<Sbom>, norm: string -> string, ref: string, b: Sbom)
    requires b in sboms && Names(norm, b, ref) && forall x :: x in sboms ==> x.id != ""
    ensures Resolve(sboms, norm, {}, ref) != ""
  {
    LookupFinds(sboms, ref);
    LookupFinds(sboms, norm(ref));
  }

  /** A lookup among some of the SBOMs finds the right one or none, and the right
      one if it is there and no lookup fails. */
  lemma ResolveAgrees(w: World, sboms: seq<Sbom>, fails: set<string>, ref: string)
    requires WellFormed(w) && Within(sboms, w.universe)
    ensures Resolve(sboms, w.norm, fails, ref) == "" || Resolve(sboms, w.norm, fails, ref) == Resolved(w, ref)
    ensures fails == {} && Within(w.universe, sboms) ==> Resolve(sboms, w.norm, fails, ref) == Resolved(w, ref)
  {
    if Resolve(sboms, w.norm, fails, ref) != "" {
      var b := ResolveFinds(sboms, w.norm, fails, ref);
      ResolveFound(w.universe, w.norm, ref, b);
      var c := ResolveFinds(w.universe, w.norm, {}, ref);
    }
    if fails == {} && Within(w.universe, sboms) && Resolved(w, ref) != "" {
      var c := ResolveFinds(w.universe, w.norm, {}, ref);
      ResolveFound(sboms, w.norm, ref, c);
    }
  }

  /** A successful lookup stays successful as more SBOMs arrive. */
  lemma ResolveStays(w: World, few: seq<Sbom>, more: seq<Sbom>, fails: set<string>, ref: string)
    requires WellFormed(w) && Within(few, more) && Within(more, w.universe) && Resolve(few, w.norm, fails, ref) != ""
    ensures Resolve(more, w.norm, {}, ref) != ""
  {
    var b := ResolveFinds(few, w.norm, fails, ref);
    ResolveFound(more, w.norm, ref, b);
  }

  // ---------------------------------------------------------------------
  // States and steps
  // ---------------------------------------------------------------------

  /** A rescue resolves the rows it read one by one, each by a lookup that may fail,
      before it inserts what it has scoped. */
  datatype Rescue = Chosen(left: seq<Statement>, rows: seq<Statement>) | Inserted(ids: set<string>)

  datatype State = State(sboms: seq<Sbom>, table: Table, done: set<string>, rescues: map<nat, Rescue>)

  const Initial := State([], map[], {}, map[])

  datatype Step =
    | IngestSbom(sbom: Sbom)
    | VexJob(doc: string, fails: set<string>)
    | StartRescue(rid: nat, found: seq<Statement>)
    | ResolveRow(rid: nat, fails: set<string>)
    | InsertRescue(rid: nat)
    | DeleteRescue(rid: nat)
    | CrashRescue(rid: nat)

  ghost predicate IsUnscopedRow(t: Table, x: Statement) {
    exists k :: k in t && t[k].sbomId == "" && x == t[k]
  }

  ghost predicate Enabled(w: World, s: State, step: Step) {
    match step
    case IngestSbom(b) => b in w.universe
    case VexJob(d, fails) => d in w.docs && d in w.targets
    case StartRescue(rid, found) =>
      rid !in s.rescues && forall x :: x in found <==> IsUnscopedRow(s.table, x)
    case ResolveRow(rid, fails) => rid in s.rescues && s.rescues[rid].Chosen? && s.rescues[rid].left != []
    case InsertRescue(rid) => rid in s.rescues && s.rescues[rid].Chosen? && s.rescues[rid].left == []
    case DeleteRescue(rid) => rid in s.rescues && s.rescues[rid].Inserted?
    case CrashRescue(rid) => rid in s.rescues
  }

  /** The row scoped, if it resolves. */
  function Scoping(w: World, s: State, fails: set<string>, row: Statement): seq<Statement> {
    var scoped := Rescued(s.sboms, w.norm, fails, row);
    if scoped.sbomId == "" then [] else [scoped]
  }

  ghost function After(w: World, s: State, step: Step): State
    requires Enabled(w, s, step)
  {
    match step
    case IngestSbom(b) => s.(sboms := [b] + s.sboms)
    case VexJob(d, fails) =>
      s.(table := AfterVEXJob(s.table, s.sboms, w.norm, fails, w.targets[d], d, w.docs[d]), done := s.done + {d})
    case StartRescue(rid, found) => s.(rescues := s.rescues[rid := Chosen(found, [])])
    case ResolveRow(rid, fails) =>
      var r := s.rescues[rid];
      s.(rescues := s.rescues[rid := Chosen(r.left[1..], r.rows + Scoping(w, s, fails, r.left[0]))])
    case InsertRescue(rid) =>
      s.(table := InsertAll(s.table, s.rescues[rid].rows), rescues := s.rescues[rid := Inserted(IdsOf(s.rescues[rid].rows))])
    case DeleteRescue(rid) =>
      s.(table := WithoutUnscoped(s.table, s.rescues[rid].ids), rescues := s.rescues - {rid})
    case CrashRescue(rid) => s.(rescues := s.rescues - {rid})
  }

  // ---------------------------------------------------------------------
  // The invariant
  // ---------------------------------------------------------------------

  /** Every row is a copy of a statement of a document that has arrived. */
  predicate RowOk(w: World, done: set<string>, k: Key, row: Statement) {
    && k == KeyOf(row) && row.vexId in w.byId && w.byId[row.vexId].documentId in done
    && (UnscopedCopy(w, row, w.byId[row.vexId]) || ScopedCopy(w, row, w.byId[row.vexId]))
  }

  ghost predicate RowsOk(w: World, done: set<string>, t: Table) {
    forall k :: k in t ==> RowOk(w, done, k, t[k])
  }

  predicate HasCopy(w: World, t: Table, s: Statement)
    requires s.documentId in w.targets
  {
    KeyOf(s) in t || ScopedKey(w, s) in t
  }

  /** Every statement of every document that has arrived is in the table. */
  ghost predicate NoneLost(w: World, done: set<string>, t: Table) {
    forall id :: id in w.byId && w.byId[id].documentId in done ==>
      w.byId[id].documentId in w.targets && HasCopy(w, t, w.byId[id])
  }

  predicate ScopedHere(w: World, t: Table, s: Statement)
    requires s.documentId in w.targets
  {
    ScopedKey(w, s) in t && t[ScopedKey(w, s)].sbomId != ""
  }

  predicate ItemOk(w: World, done: set<string>, x: Statement) {
    && x.vexId in w.byId && w.byId[x.vexId].documentId in done
    && ScopedCopy(w, Stored(x), w.byId[x.vexId])
  }

  /** A row that was read as unscoped. */
  predicate LeftOk(w: World, done: set<string>, x: Statement) {
    && x.vexId in w.byId && w.byId[x.vexId].documentId in done
    && UnscopedCopy(w, x, w.byId[x.vexId])
  }

  predicate RescueOk(w: World, done: set<string>, t: Table, r: Rescue) {
    match r
    case Chosen(left, rows) =>
      && (forall i :: 0 <= i < |left| ==> LeftOk(w, done, left[i]))
      && (forall i :: 0 <= i < |rows| ==> ItemOk(w, done, rows[i]))
    case Inserted(ids) => forall id :: id in ids ==>
      id in w.byId && w.byId[id].documentId in done && w.byId[id].documentId in w.targets && ScopedHere(w, t, w.byId[id])
  }

  ghost predicate Inv(w: World, s: State) {
    && Within(s.sboms, w.universe)
    && RowsOk(w, s.done, s.table)
    && NoneLost(w, s.done, s.table)
    && (forall rid :: rid in s.rescues ==> RescueOk(w, s.done, s.table, s.rescues[rid]))
  }

  /** A VEX job that leaves a statement unscoped while a rescue that has inserted
      its scoped copy is about to delete the unscoped one. */
  ghost predicate Unscopes(w: World, s: State, step: Step) {
    && step.VexJob? && Enabled(w, s, step)
    && !(HasDocument(s.table, step.doc) && !HasUnscoped(s.table, step.doc))
    && exists rid, x :: rid in s.rescues && s.rescues[rid].Inserted? && x in w.docs[step.doc] && x.vexId in s.rescues[rid].ids
         && ScopeOne(s.sboms, w.norm, step.fails, w.targets[step.doc], x).sbomId == ""
  }

  // ---------------------------------------------------------------------
  // Inserting rows
  // ---------------------------------------------------------------------

  /** A key holds the last of the rows of that key, or what it held. */
  lemma {:induction false} InsertAllAt(t: Table, rows: seq<Statement>, k: Key)
    ensures k in InsertAll(t, rows) <==> k in t || exists i :: 0 <= i < |rows| && KeyOf(rows[i]) == k
    ensures k in InsertAll(t, rows) ==>
              || (exists i :: 0 <= i < |rows| && KeyOf(rows[i]) == k && InsertAll(t, rows)[k] == Stored(rows[i]))
              || (k in t && InsertAll(t, rows)[k] == t[k] && forall i :: 0 <= i < |rows| ==> KeyOf(rows[i]) != k)
  {
    if rows != [] {
      var n := |rows| - 1;
      InsertAllAt(t, rows[..n], k);
      assert forall i :: 0 <= i < n ==> rows[..n][i] == rows[i];
      if KeyOf(rows[n]) == k {
        assert InsertAll(t, rows)[k] == Stored(rows[n]);
      }
    }
  }

  lemma InsertKeepsRowsOk(w: World, done: set<string>, t: Table, rows: seq<Statement>)
    requires RowsOk(w, done, t)
    requires forall i :: 0 <= i < |rows| ==> RowOk(w, done, KeyOf(rows[i]), Stored(rows[i]))
    ensures RowsOk(w, done, InsertAll(t, rows))
  {
    forall k | k in InsertAll(t, rows) ensures RowOk(w, done, k, InsertAll(t, rows)[k]) { InsertAllAt(t, rows, k); }
  }

  lemma InsertKeepsScopedHere(w: World, t: Table, rows: seq<Statement>, s: Statement)
    requires s.documentId in w.targets && ScopedHere(w, t, s)
    requires forall i :: 0 <= i < |rows| ==> rows[i].sbomId != ""
    ensures ScopedHere(w, InsertAll(t, rows), s)
  {
    InsertAllAt(t, rows, ScopedKey(w, s));
  }

  lemma InsertKeepsCopy(w: World, t: Table, rows: seq<Statement>, s: Statement)
    requires s.documentId in w.targets && HasCopy(w, t, s)
    ensures HasCopy(w, InsertAll(t, rows), s)
  {
    InsertAllAt(t, rows, KeyOf(s));
    InsertAllAt(t, rows, ScopedKey(w, s));
  }

  // ---------------------------------------------------------------------
  // Every step
  // ---------------------------------------------------------------------

  /** A VEX job makes of each statement a scoped or an unscoped copy. */
  lemma JobRowOk(w: World, s: State, d: string, fails: set<string>, x: Statement)
    requires WellFormed(w) && Within(s.sboms, w.universe) && d in w.docs && x in w.docs[d]
    ensures var row := ScopeOne(s.sboms, w.norm, fails, w.targets[d], x);
            && RowOk(w, s.done + {d}, KeyOf(row), Stored(row))
            && (row.sbomId != "" ==> KeyOf(row) == ScopedKey(w, x)) && (row.sbomId == "" ==> KeyOf(row) == KeyOf(x))
  {
    ResolveAgrees(w, s.sboms, fails, x.productRef);
  }

  /** The rescue makes of an unscoped row a scoped copy, or leaves it. */
  lemma RescuedOk(w: World, s: State, fails: set<string>, x: Statement)
    requires WellFormed(w) && Within(s.sboms, w.universe) && LeftOk(w, s.done, x)
    ensures forall y :: y in Scoping(w, s, fails, x) ==> ItemOk(w, s.done, y) && y.vexId == x.vexId
  {
    ResolveAgrees(w, s.sboms, fails, Ref(x));
  }

  lemma IngestKeeps(w: World, s: State, step: Step)
    requires WellFormed(w) && Inv(w, s) && Enabled(w, s, step) && step.IngestSbom?
    ensures Inv(w, After(w, s, step))
  {
  }

  lemma StartKeeps(w: World, s: State, step: Step)
    requires WellFormed(w) && Inv(w, s) && Enabled(w, s, step) && step.StartRescue?
    ensures Inv(w, After(w, s, step))
  {
    forall i | 0 <= i < |step.found| ensures LeftOk(w, s.done, step.found[i]) {
      assert step.found[i] in step.found;
      var k :| k in s.table && s.table[k].sbomId == "" && step.found[i] == s.table[k];
      assert RowOk(w, s.done, k, s.table[k]);
    }
  }

  lemma ResolveKeeps(w: World, s: State, step: Step)
    requires WellFormed(w) && Inv(w, s) && Enabled(w, s, step) && step.ResolveRow?
    ensures Inv(w, After(w, s, step))
  {
    var r := s.rescues[step.rid];
    assert RescueOk(w, s.done, s.table, r);
    RescuedOk(w, s, step.fails, r.left[0]);
    var more := Scoping(w, s, step.fails, r.left[0]);
    forall i | 0 <= i < |r.rows + more| ensures ItemOk(w, s.done, (r.rows + more)[i]) {
      if i >= |r.rows| { assert (r.rows + more)[i] in more; }
    }
  }

  lemma ItemKey(w: World, done: set<string>, x: Statement)
    requires ItemOk(w, done, x)
    ensures KeyOf(x) == ScopedKey(w, w.byId[x.vexId]) && x.sbomId != "" && RowOk(w, done, KeyOf(x), Stored(x))
  {
  }

  lemma InsertRescueKeeps(w: World, s: State, step: Step)
    requires WellFormed(w) && Inv(w, s) && Enabled(w, s, step) && step.InsertRescue?
    ensures Inv(w, After(w, s, step))
  {
    var rows, after := s.rescues[step.rid].rows, After(w, s, step);
    assert RescueOk(w, s.done, s.table, s.rescues[step.rid]);
    forall i | 0 <= i < |rows| ensures RowOk(w, s.done, KeyOf(rows[i]), Stored(rows[i])) && rows[i].sbomId != "" {
      ItemKey(w, s.done, rows[i]);
    }
    InsertKeepsRowsOk(w, s.done, s.table, rows);
    forall id | id in w.byId && w.byId[id].documentId in s.done ensures HasCopy(w, after.table, w.byId[id]) {
      InsertKeepsCopy(w, s.table, rows, w.byId[id]);
    }
    forall rid | rid in after.rescues ensures RescueOk(w, s.done, after.table, after.rescues[rid]) {
      if rid == step.rid {
        forall i | 0 <= i < |rows| ensures ScopedHere(w, after.table, w.byId[rows[i].vexId]) {
          ItemKey(w, s.done, rows[i]);
          InsertAllAt(s.table, rows, KeyOf(rows[i]));
        }
      } else {
        assert RescueOk(w, s.done, s.table, s.rescues[rid]);
        if s.rescues[rid].Inserted? {
          forall id | id in s.rescues[rid].ids ensures ScopedHere(w, after.table, w.byId[id]) {
            InsertKeepsScopedHere(w, s.table, rows, w.byId[id]);
          }
        }
      }
    }
  }

  /** What a rescue deletes has its scoped copy in the table. */
  lemma DeleteKeepsCopy(w: World, s: State, rid: nat, id: string)
    requires WellFormed(w) && Inv(w, s) && rid in s.rescues && s.rescues[rid].Inserted?
    requires id in w.byId && w.byId[id].documentId in s.done
    ensures w.byId[id].documentId in w.targets && HasCopy(w, WithoutUnscoped(s.table, s.rescues[rid].ids), w.byId[id])
  {
    var x := w.byId[id];
    assert HasCopy(w, s.table, x) && RescueOk(w, s.done, s.table, s.rescues[rid]);
    if id in s.rescues[rid].ids {
      assert ScopedHere(w, s.table, x);
    } else {
      forall k | k in s.table && k.vexId == id ensures s.table[k].vexId == id { assert RowOk(w, s.done, k, s.table[k]); }
    }
  }

  lemma DeleteKeeps(w: World, s: State, step: Step)
    requires WellFormed(w) && Inv(w, s) && Enabled(w, s, step) && (step.DeleteRescue? || step.CrashRescue?)
    ensures Inv(w, After(w, s, step))
  {
    var after := After(w, s, step);
    if step.DeleteRescue? {
      forall id | id in w.byId && w.byId[id].documentId in s.done
        ensures w.byId[id].documentId in w.targets && HasCopy(w, after.table, w.byId[id])
      {
        DeleteKeepsCopy(w, s, step.rid, id);
      }
      forall rid | rid in after.rescues ensures RescueOk(w, s.done, after.table, after.rescues[rid]) {
        DeleteKeepsRescue(w, s, s.rescues[step.rid].ids, rid);
      }
    }
  }

  lemma DeleteKeepsRescue(w: World, s: State, ids: set<string>, rid: nat)
    requires Inv(w, s) && rid in s.rescues
    ensures RescueOk(w, s.done, WithoutUnscoped(s.table, ids), s.rescues[rid])
  {
    assert RescueOk(w, s.done, s.table, s.rescues[rid]);
  }

  /** The rows a VEX job inserts. */
  function JobRows(w: World, s: State, step: Step): (rows: seq<Statement>)
    requires step.VexJob? && step.doc in w.docs && step.doc in w.targets
  {
    ScopeAll(s.sboms, w.norm, step.fails, w.targets[step.doc], w.docs[step.doc])
  }

  predicate Skips(s: State, step: Step)
    requires step.VexJob?
  {
    HasDocument(s.table, step.doc) && !HasUnscoped(s.table, step.doc)
  }

  /** A statement has one row among those its document inserts. */
  lemma JobRowsOf(w: World, s: State, step: Step, x: Statement)
    requires WellFormed(w) && step.VexJob? && step.doc in w.docs && step.doc in w.targets
    requires x.vexId in w.byId && w.byId[x.vexId] == x && x.documentId == step.doc
    ensures var row := ScopeOne(s.sboms, w.norm, step.fails, w.targets[step.doc], x);
            && row in JobRows(w, s, step) && row.vexId == x.vexId
            && forall j :: 0 <= j < |JobRows(w, s, step)| && JobRows(w, s, step)[j].vexId == x.vexId ==> JobRows(w, s, step)[j] == row
  {
    var rows := JobRows(w, s, step);
    var row := ScopeOne(s.sboms, w.norm, step.fails, w.targets[step.doc], x);
    var i :| 0 <= i < |w.docs[step.doc]| && w.docs[step.doc][i] == x;
    assert rows[i] == row;
    forall j | 0 <= j < |rows| && rows[j].vexId == x.vexId ensures rows[j] == row {
      assert w.docs[step.doc][j] in w.docs[step.doc];
      assert rows[j] == ScopeOne(s.sboms, w.norm, step.fails, w.targets[step.doc], w.docs[step.doc][j]);
    }
  }

  lemma DocumentRowsGo(w: World, s: State, d: string, k: Key)
    requires Inv(w, s) && k.vexId in w.byId && w.byId[k.vexId].documentId == d
    ensures k !in WithoutDocument(s.table, d)
  {
    if k in s.table { assert RowOk(w, s.done, k, s.table[k]); }
  }

  /** A statement's row after its document was replaced. */
  lemma ReplacedRow(w: World, s: State, step: Step, x: Statement)
    requires WellFormed(w) && Inv(w, s) && Enabled(w, s, step) && step.VexJob? && !Skips(s, step)
    requires x.vexId in w.byId && w.byId[x.vexId] == x && x.documentId == step.doc
    ensures var row, t := ScopeOne(s.sboms, w.norm, step.fails, w.targets[step.doc], x), After(w, s, step).table;
            && KeyOf(row) in t && t[KeyOf(row)] == Stored(row)
            && forall k: Key :: k.vexId == x.vexId && k in t ==> k == KeyOf(row)
  {
    var rows, rest := JobRows(w, s, step), WithoutDocument(s.table, step.doc);
    var row := ScopeOne(s.sboms, w.norm, step.fails, w.targets[step.doc], x);
    JobRowsOf(w, s, step, x);
    assert After(w, s, step).table == InsertAll(rest, rows);
    InsertAllAt(rest, rows, KeyOf(row));
    forall k: Key | k.vexId == x.vexId && k in InsertAll(rest, rows) ensures k == KeyOf(row) {
      InsertAllAt(rest, rows, k);
      DocumentRowsGo(w, s, step.doc, k);
    }
  }

  /** A job inserts rows of its own document's statements only. */
  lemma JobRowOwn(w: World, s: State, step: Step, j: nat)
    requires WellFormed(w) && step.VexJob? && step.doc in w.docs && step.doc in w.targets && j < |JobRows(w, s, step)|
    ensures var id := KeyOf(JobRows(w, s, step)[j]).vexId; id in w.byId && w.byId[id].documentId == step.doc
  {
    var x := w.docs[step.doc][j];
    assert x in w.docs[step.doc];
    assert JobRows(w, s, step)[j] == ScopeOne(s.sboms, w.norm, step.fails, w.targets[step.doc], x);
  }

  /** The rows of other documents are as they were. */
  lemma OtherRow(w: World, s: State, step: Step, k: Key)
    requires WellFormed(w) && Inv(w, s) && Enabled(w, s, step) && step.VexJob? && !Skips(s, step)
    requires k.vexId in w.byId && w.byId[k.vexId].documentId != step.doc
    ensures k in After(w, s, step).table <==> k in s.table
    ensures k in s.table ==> After(w, s, step).table[k] == s.table[k]
  {
    var rows, rest := JobRows(w, s, step), WithoutDocument(s.table, step.doc);
    OthersStay(w, s, step.doc, k);
    forall j | 0 <= j < |rows| ensures KeyOf(rows[j]) != k { JobRowOwn(w, s, step, j); }
    InsertAllAt(rest, rows, k);
  }

  lemma OthersStay(w: World, s: State, d: string, k: Key)
    requires WellFormed(w) && Inv(w, s) && k.vexId in w.byId && w.byId[k.vexId].documentId != d
    ensures k in WithoutDocument(s.table, d) <==> k in s.table
    ensures k in s.table ==> WithoutDocument(s.table, d)[k] == s.table[k]
  {
    if k in s.table { assert RowOk(w, s.done, k, s.table[k]); }
  }

  lemma ReplaceKeepsRows(w: World, s: State, step: Step)
    requires WellFormed(w) && Inv(w, s) && Enabled(w, s, step) && step.VexJob? && !Skips(s, step)
    ensures RowsOk(w, s.done + {step.doc}, After(w, s, step).table)
    ensures NoneLost(w, s.done + {step.doc}, After(w, s, step).table)
  {
    var rows, rest, after := JobRows(w, s, step), WithoutDocument(s.table, step.doc), After(w, s, step);
    forall k | k in rest ensures RowOk(w, s.done + {step.doc}, k, rest[k]) { assert RowOk(w, s.done, k, s.table[k]); }
    forall i | 0 <= i < |rows| ensures RowOk(w, s.done + {step.doc}, KeyOf(rows[i]), Stored(rows[i])) {
      assert w.docs[step.doc][i] in w.docs[step.doc];
      JobRowOk(w, s, step.doc, step.fails, w.docs[step.doc][i]);
    }
    InsertKeepsRowsOk(w, s.done + {step.doc}, rest, rows);
    forall id | id in w.byId && w.byId[id].documentId in s.done + {step.doc} ensures HasCopy(w, after.table, w.byId[id]) {
      var x := w.byId[id];
      if x.documentId == step.doc {
        ReplacedRow(w, s, step, x);
        JobRowOk(w, s, step.doc, step.fails, x);
      } else {
        assert HasCopy(w, s.table, x);
        OtherRow(w, s, step, KeyOf(x));
        OtherRow(w, s, step, ScopedKey(w, x));
      }
    }
  }

  lemma ReplaceKeepsScoped(w: World, s: State, step: Step, rid: nat, id: string)
    requires WellFormed(w) && Inv(w, s) && Enabled(w, s, step) && step.VexJob? && !Skips(s, step) && !Unscopes(w, s, step)
    requires rid in s.rescues && s.rescues[rid].Inserted? && id in s.rescues[rid].ids
    ensures id in w.byId && w.byId[id].documentId in w.targets && ScopedHere(w, After(w, s, step).table, w.byId[id])
  {
    assert RescueOk(w, s.done, s.table, s.rescues[rid]);
    var x := w.byId[id];
    if x.documentId == step.doc {
      assert x in w.docs[step.doc];
      ReplacedRow(w, s, step, x);
      JobRowOk(w, s, step.doc, step.fails, x);
    } else {
      OtherRow(w, s, step, ScopedKey(w, x));
    }
  }

  lemma VexJobKeeps(w: World, s: State, step: Step)
    requires WellFormed(w) && Inv(w, s) && Enabled(w, s, step) && step.VexJob? && !Unscopes(w, s, step)
    ensures Inv(w, After(w, s, step))
  {
    if Skips(s, step) {
      SkippedIsDone(w, s, step);
      assert After(w, s, step) == s;
    } else {
      ReplaceKeepsRows(w, s, step);
      forall rid | rid in s.rescues ensures RescueOk(w, s.done + {step.doc}, After(w, s, step).table, s.rescues[rid]) {
        ReplaceKeepsRescue(w, s, step, rid);
      }
    }
  }

  lemma SkippedIsDone(w: World, s: State, step: Step)
    requires Inv(w, s) && step.VexJob? && HasDocument(s.table, step.doc)
    ensures s.done + {step.doc} == s.done
  {
    var k :| k in s.table && s.table[k].documentId == step.doc;
    assert RowOk(w, s.done, k, s.table[k]);
  }

  lemma ReplaceKeepsRescue(w: World, s: State, step: Step, rid: nat)
    requires WellFormed(w) && Inv(w, s) && Enabled(w, s, step) && step.VexJob? && !Skips(s, step) && !Unscopes(w, s, step)
    requires rid in s.rescues
    ensures RescueOk(w, s.done + {step.doc}, After(w, s, step).table, s.rescues[rid])
  {
    assert RescueOk(w, s.done, s.table, s.rescues[rid]);
    if s.rescues[rid].Inserted? {
      forall id | id in s.rescues[rid].ids
        ensures id in w.byId && w.byId[id].documentId in w.targets && ScopedHere(w, After(w, s, step).table, w.byId[id])
      {
        ReplaceKeepsScoped(w, s, step, rid, id);
      }
    }
  }

  lemma StepKeeps(w: World, s: State, step: Step)
    requires WellFormed(w) && Inv(w, s) && Enabled(w, s, step) && !Unscopes(w, s, step)
    ensures Inv(w, After(w, s, step))
  {
    match step
    case IngestSbom(_) => IngestKeeps(w, s, step);
    case VexJob(_, _) => VexJobKeeps(w, s, step);
    case StartRescue(_, _) => StartKeeps(w, s, step);
    case ResolveRow(_, _) => ResolveKeeps(w, s, step);
    case InsertRescue(_) => InsertRescueKeeps(w, s, step);
    case DeleteRescue(_) => DeleteKeeps(w, s, step);
    case CrashRescue(_) => DeleteKeeps(w, s, step);
  }

  // ---------------------------------------------------------------------
  // Whole runs
  // ---------------------------------------------------------------------

  ghost predicate Run(w: World, s: State, steps: seq<Step>)
    decreases |steps|
  {
    steps == [] || (Enabled(w, s, steps[0]) && Run(w, After(w, s, steps[0]), steps[1..]))
  }

  ghost function End(w: World, s: State, steps: seq<Step>): State
    requires Run(w, s, steps)
    decreases |steps|
  {
    if steps == [] then s else End(w, After(w, s, steps[0]), steps[1..])
  }

  /** No job of the run unscopes a statement under a rescue about to delete. */
  ghost predicate Careful(w: World, s: State, steps: seq<Step>)
    requires Run(w, s, steps)
    decreases |steps|
  {
    steps == [] || (!Unscopes(w, s, steps[0]) && Careful(w, After(w, s, steps[0]), steps[1..]))
  }

  /** At every point of such a run, in the middle of any rescue or after its
      crash, each statement of each document that has arrived has a copy. */
  lemma {:induction false} NothingIsLost(w: World, s: State, steps: seq<Step>)
    requires WellFormed(w) && Inv(w, s) && Run(w, s, steps) && Careful(w, s, steps)
    ensures Inv(w, End(w, s, steps)) && NoneLost(w, End(w, s, steps).done, End(w, s, steps).table)
    decreases |steps|
  {
    if steps != [] {
      StepKeeps(w, s, steps[0]);
      NothingIsLost(w, After(w, s, steps[0]), steps[1..]);
    }
  }

  /** The condition is exact: a job that does unscope a statement under a rescue
      loses it when that rescue deletes. */
  lemma UnscopingLoses(w: World, s: State, step: Step, rid: nat, x: Statement)
    requires WellFormed(w) && Inv(w, s) && step.VexJob? && Enabled(w, s, step) && !Skips(s, step)
    requires rid in s.rescues && s.rescues[rid].Inserted? && x in w.docs[step.doc] && x.vexId in s.rescues[rid].ids
    requires ScopeOne(s.sboms, w.norm, step.fails, w.targets[step.doc], x).sbomId == ""
    ensures Unscopes(w, s, step)
    ensures Enabled(w, After(w, s, step), DeleteRescue(rid))
    ensures !HasCopy(w, After(w, After(w, s, step), DeleteRescue(rid)).table, x)
  {
    ReplacedRow(w, s, step, x);
  }

  /** No step of a rescue removes or changes a scoped row, except that inserting
      may rewrite one with the scope it has. */
  lemma RescueSparesScoped(w: World, s: State, step: Step, k: Key)
    requires WellFormed(w) && Inv(w, s) && Enabled(w, s, step) && !step.VexJob?
    requires k in s.table && s.table[k].sbomId != ""
    ensures k in After(w, s, step).table
    ensures After(w, s, step).table[k].(productRef := "") == s.table[k].(productRef := "")
  {
    assert RowOk(w, s.done, k, s.table[k]);
    if step.InsertRescue? {
      InsertAllAt(s.table, s.rescues[step.rid].rows, k);
      assert RescueOk(w, s.done, s.table, s.rescues[step.rid]);
      forall i | 0 <= i < |s.rescues[step.rid].rows| && KeyOf(s.rescues[step.rid].rows[i]) == k
        ensures Stored(s.rescues[step.rid].rows[i]).(productRef := "") == s.table[k].(productRef := "")
      {
        SameScopedRow(w, s.done, k, s.table[k], s.rescues[step.rid].rows[i]);
      }
    }
  }

  lemma SameScopedRow(w: World, done: set<string>, k: Key, row: Statement, x: Statement)
    requires RowOk(w, done, k, row) && Parsed(w.byId[row.vexId]) && row.sbomId != "" && ItemOk(w, done, x) && KeyOf(x) == k
    ensures Stored(x).(productRef := "") == row.(productRef := "")
  {
    assert ScopedCopy(w, row, w.byId[row.vexId]);
  }

  // ---------------------------------------------------------------------
  // When no job unscopes
  // ---------------------------------------------------------------------

  /** A VEX job none of whose lookups fails, for statements that name a product. */
  predicate Healthy(w: World, step: Step) {
    step.VexJob? ==> step.fails == {} && step.doc in w.docs && forall x :: x in w.docs[step.doc] ==> x.productRef != ""
  }

  predicate Resolvable(w: World, s: State, id: string) {
    && id in w.byId && w.byId[id].documentId in w.targets
    && (w.targets[w.byId[id].documentId] != "" || Resolve(s.sboms, w.norm, {}, Ref(w.byId[id])) != "")
  }

  function Ids(r: Rescue): set<string> {
    match r
    case Chosen(_, rows) => IdsOf(rows)
    case Inserted(ids) => ids
  }

  /** What a rescue has scoped resolves now. */
  ghost predicate Backed(w: World, s: State) {
    forall rid, id :: rid in s.rescues && id in Ids(s.rescues[rid]) ==> Resolvable(w, s, id)
  }

  lemma ScopingResolves(w: World, s: State, fails: set<string>, x: Statement)
    requires WellFormed(w) && Within(s.sboms, w.universe) && LeftOk(w, s.done, x)
    ensures forall y :: y in Scoping(w, s, fails, x) ==> y.vexId == x.vexId && Resolvable(w, s, x.vexId)
  {
    if Rescued(s.sboms, w.norm, fails, x).sbomId != "" { ResolveStays(w, s.sboms, s.sboms, fails, Ref(x)); }
  }

  lemma ResolvedBacked(w: World, s: State, step: Step, id: string)
    requires WellFormed(w) && Inv(w, s) && Backed(w, s) && Enabled(w, s, step) && step.ResolveRow?
    requires id in Ids(After(w, s, step).rescues[step.rid])
    ensures Resolvable(w, s, id)
  {
    var r := s.rescues[step.rid];
    assert RescueOk(w, s.done, s.table, r);
    var more := Scoping(w, s, step.fails, r.left[0]);
    ScopingResolves(w, s, step.fails, r.left[0]);
    IdsConcat(r.rows, more);
    if id in IdsOf(r.rows) { assert id in Ids(r); }
  }

  lemma IdsConcat(a: seq<Statement>, b: seq<Statement>)
    ensures IdsOf(a + b) == IdsOf(a) + IdsOf(b)
    ensures forall x :: x in b ==> x.vexId in IdsOf(b)
  {
    forall id ensures id in IdsOf(a + b) <==> id in IdsOf(a) || id in IdsOf(b) {
      if i :| 0 <= i < |a| && a[i].vexId == id { assert (a + b)[i].vexId == id; }
      if i :| 0 <= i < |b| && b[i].vexId == id { assert (a + b)[|a| + i].vexId == id; }
    }
  }

  lemma StepKeepsBacked(w: World, s: State, step: Step)
    requires WellFormed(w) && Inv(w, s) && Backed(w, s) && Enabled(w, s, step)
    ensures Backed(w, After(w, s, step))
  {
    var after := After(w, s, step);
    forall rid, id | rid in after.rescues && id in Ids(after.rescues[rid]) ensures Resolvable(w, after, id) {
      if step.ResolveRow? && rid == step.rid {
        ResolvedBacked(w, s, step, id);
      } else if !(step.StartRescue? && rid == step.rid) {
        assert id in Ids(s.rescues[rid]) && Resolvable(w, s, id);
        if step.IngestSbom? && w.targets[w.byId[id].documentId] == "" {
          ResolveStays(w, s.sboms, after.sboms, {}, Ref(w.byId[id]));
        }
      }
    }
  }

  /** A healthy job never unscopes a statement under a rescue. */
  lemma HealthyNeverUnscopes(w: World, s: State, step: Step)
    requires WellFormed(w) && Inv(w, s) && Backed(w, s) && Enabled(w, s, step) && Healthy(w, step)
    ensures !Unscopes(w, s, step)
  {
    if step.VexJob? {
      forall rid, x | rid in s.rescues && s.rescues[rid].Inserted? && x in w.docs[step.doc] && x.vexId in s.rescues[rid].ids
        ensures ScopeOne(s.sboms, w.norm, step.fails, w.targets[step.doc], x).sbomId != ""
      {
        assert Resolvable(w, s, x.vexId);
      }
    }
  }

  ghost predicate HealthySteps(w: World, steps: seq<Step>) {
    forall i :: 0 <= i < |steps| ==> Healthy(w, steps[i])
  }

  lemma InitialInv(w: World)
    requires forall id :: id in w.byId ==> w.byId[id].documentId in w.docs
    ensures Inv(w, Initial) && Backed(w, Initial)
  {
  }

  /** Runs of healthy jobs from the start, with SBOMs, rescues and crashes in any
      order, never lose a statement. */
  lemma HealthyRunsLoseNothing(w: World, steps: seq<Step>)
    requires WellFormed(w) && Run(w, Initial, steps) && HealthySteps(w, steps)
    ensures NoneLost(w, End(w, Initial, steps).done, End(w, Initial, steps).table)
  {
    InitialInv(w);
    HealthyIsCareful(w, Initial, steps);
  }

  lemma {:induction false} HealthyIsCareful(w: World, s: State, steps: seq<Step>)
    requires WellFormed(w) && Inv(w, s) && Backed(w, s) && Run(w, s, steps) && HealthySteps(w, steps)
    ensures Careful(w, s, steps) && Inv(w, End(w, s, steps)) && Backed(w, End(w, s, steps))
    decreases |steps|
  {
    if steps != [] {
      HealthyNeverUnscopes(w, s, steps[0]);
      StepKeeps(w, s, steps[0]);
      StepKeepsBacked(w, s, steps[0]);
      assert forall i :: 0 <= i < |steps[1..]| ==> steps[1..][i] == steps[i + 1];
      HealthyIsCareful(w, After(w, s, steps[0]), steps[1..]);
    }
  }

  // ---------------------------------------------------------------------
  // Where every order ends
  // ---------------------------------------------------------------------

  ghost predicate AllIn(w: World, s: State) {
    Within(w.universe, s.sboms)
  }

  /** No row is unscoped whose statement belongs to an SBOM, but for these. */
  ghost predicate CanonicalBut(w: World, t: Table, ids: set<string>) {
    forall k :: k in t && t[k].sbomId == "" && t[k].vexId !in ids ==>
      t[k].vexId in w.byId && w.byId[t[k].vexId].documentId in w.targets && Home(w, w.byId[t[k].vexId]) == ""
  }

  /** What a rescue has still to see to. */
  function Todo(r: Rescue): set<string> {
    match r
    case Chosen(left, rows) => IdsOf(left) + IdsOf(rows)
    case Inserted(ids) => ids
  }

  /** Every row that ought to be scoped and is not is seen to by the rescue. */
  ghost predicate Covered(w: World, s: State, rid: nat) {
    rid in s.rescues && CanonicalBut(w, s.table, Todo(s.rescues[rid]))
  }

  lemma StartCovers(w: World, s: State, step: Step)
    requires Inv(w, s) && Enabled(w, s, step) && step.StartRescue?
    ensures Covered(w, After(w, s, step), step.rid)
  {
    IdsConcat([], step.found);
    forall k | k in s.table && s.table[k].sbomId == "" ensures s.table[k].vexId in IdsOf(step.found) {
      assert IsUnscopedRow(s.table, s.table[k]) && s.table[k] in step.found;
    }
  }

  /** Once every SBOM is in, a row that does not resolve belongs to none. */
  lemma UnresolvedIsHomeless(w: World, s: State, x: Statement)
    requires WellFormed(w) && Within(s.sboms, w.universe) && AllIn(w, s) && LeftOk(w, s.done, x)
    requires Scoping(w, s, {}, x) == []
    ensures Home(w, w.byId[x.vexId]) == ""
  {
    ResolveAgrees(w, s.sboms, {}, Ref(x));
  }

  lemma TodoAfter(left: seq<Statement>, rows: seq<Statement>, more: seq<Statement>)
    requires left != [] && forall y :: y in more ==> y.vexId == left[0].vexId
    ensures var now := Todo(Chosen(left[1..], rows + more));
            Todo(Chosen(left, rows)) <= now + {left[0].vexId} && (more != [] ==> left[0].vexId in now)
  {
    assert left == [left[0]] + left[1..];
    IdsConcat([left[0]], left[1..]);
    IdsConcat(rows, more);
    if more != [] { assert more[0] in more; }
  }

  lemma CanonicalWithout(w: World, t: Table, ids: set<string>, now: set<string>, id: string)
    requires CanonicalBut(w, t, ids) && ids <= now + {id}
    requires id in now || (id in w.byId && w.byId[id].documentId in w.targets && Home(w, w.byId[id]) == "")
    ensures CanonicalBut(w, t, now)
  {
  }

  lemma ResolveStaysCovered(w: World, s: State, step: Step)
    requires WellFormed(w) && Inv(w, s) && AllIn(w, s) && Enabled(w, s, step) && step.ResolveRow? && step.fails == {}
    requires Covered(w, s, step.rid)
    ensures Covered(w, After(w, s, step), step.rid)
  {
    var r := s.rescues[step.rid];
    assert RescueOk(w, s.done, s.table, r) && LeftOk(w, s.done, r.left[0]);
    var x, more := r.left[0], Scoping(w, s, {}, r.left[0]);
    RescuedOk(w, s, {}, x);
    TodoAfter(r.left, r.rows, more);
    if more == [] { UnresolvedIsHomeless(w, s, x); }
    CanonicalWithout(w, s.table, Todo(r), Todo(Chosen(r.left[1..], r.rows + more)), x.vexId);
  }

  lemma StepStaysCanonicalBut(w: World, s: State, step: Step, ids: set<string>)
    requires WellFormed(w) && Inv(w, s) && AllIn(w, s) && Enabled(w, s, step) && Healthy(w, step)
    requires CanonicalBut(w, s.table, ids)
    ensures CanonicalBut(w, After(w, s, step).table, ids) && AllIn(w, After(w, s, step))
  {
    var after := After(w, s, step);
    if step.InsertRescue? {
      forall k | k in after.table && after.table[k].sbomId == "" ensures k in s.table && after.table[k] == s.table[k] {
        InsertAllAt(s.table, s.rescues[step.rid].rows, k);
        assert RescueOk(w, s.done, s.table, s.rescues[step.rid]);
      }
    } else if step.VexJob? && !Skips(s, step) {
      forall k | k in after.table && after.table[k].sbomId == "" && after.table[k].vexId !in ids
        ensures k.vexId == after.table[k].vexId && k.vexId in w.byId && w.byId[k.vexId].documentId in w.targets && Home(w, w.byId[k.vexId]) == ""
      {
        JobStaysCanonicalBut(w, s, step, ids, k);
      }
    }
  }

  lemma JobStaysCanonicalBut(w: World, s: State, step: Step, ids: set<string>, k: Key)
    requires WellFormed(w) && Inv(w, s) && AllIn(w, s) && Enabled(w, s, step) && Healthy(w, step)
    requires CanonicalBut(w, s.table, ids) && step.VexJob? && !Skips(s, step)
    requires k in After(w, s, step).table && After(w, s, step).table[k].sbomId == "" && After(w, s, step).table[k].vexId !in ids
    ensures k.vexId == After(w, s, step).table[k].vexId
    ensures k.vexId in w.byId && w.byId[k.vexId].documentId in w.targets && Home(w, w.byId[k.vexId]) == ""
  {
    ReplaceKeepsRows(w, s, step);
    assert RowOk(w, s.done + {step.doc}, k, After(w, s, step).table[k]);
    var x := w.byId[k.vexId];
    if x.documentId == step.doc {
      ReplacedRow(w, s, step, x);
      ResolveAgrees(w, s.sboms, {}, x.productRef);
    } else {
      OtherRow(w, s, step, k);
    }
  }

  lemma {:induction false} RunStaysCanonicalBut(w: World, s: State, steps: seq<Step>, ids: set<string>)
    requires WellFormed(w) && Inv(w, s) && Backed(w, s) && AllIn(w, s) && Run(w, s, steps) && HealthySteps(w, steps)
    requires CanonicalBut(w, s.table, ids)
    ensures CanonicalBut(w, End(w, s, steps).table, ids) && AllIn(w, End(w, s, steps))
    decreases |steps|
  {
    if steps != [] {
      StepStaysCanonicalBut(w, s, steps[0], ids);
      HealthyNeverUnscopes(w, s, steps[0]);
      StepKeeps(w, s, steps[0]);
      StepKeepsBacked(w, s, steps[0]);
      assert forall i :: 0 <= i < |steps[1..]| ==> steps[1..][i] == steps[i + 1];
      RunStaysCanonicalBut(w, After(w, s, steps[0]), steps[1..], ids);
    }
  }

  /** Not a step that ends the rescue, nor a failing lookup of its own. */
  predicate LetsFinish(step: Step, rid: nat) {
    step != DeleteRescue(rid) && step != CrashRescue(rid) && (step.ResolveRow? && step.rid == rid ==> step.fails == {})
  }

  lemma TodoStays(w: World, s: State, step: Step, rid: nat)
    requires Enabled(w, s, step) && rid in s.rescues && LetsFinish(step, rid) && !(step.ResolveRow? && step.rid == rid)
    ensures rid in After(w, s, step).rescues && Todo(After(w, s, step).rescues[rid]) == Todo(s.rescues[rid])
  {
    assert IdsOf([]) == {};
  }

  lemma StepStaysCovered(w: World, s: State, step: Step, rid: nat)
    requires WellFormed(w) && Inv(w, s) && AllIn(w, s) && Enabled(w, s, step) && Healthy(w, step) && LetsFinish(step, rid)
    requires Covered(w, s, rid)
    ensures Covered(w, After(w, s, step), rid) && AllIn(w, After(w, s, step))
  {
    if step.ResolveRow? && step.rid == rid {
      ResolveStaysCovered(w, s, step);
    } else {
      StepStaysCanonicalBut(w, s, step, Todo(s.rescues[rid]));
      TodoStays(w, s, step, rid);
    }
  }

  lemma {:induction false} RunStaysCovered(w: World, s: State, steps: seq<Step>, rid: nat)
    requires WellFormed(w) && Inv(w, s) && Backed(w, s) && AllIn(w, s) && Run(w, s, steps) && HealthySteps(w, steps)
    requires Covered(w, s, rid) && forall i :: 0 <= i < |steps| ==> LetsFinish(steps[i], rid)
    ensures Covered(w, End(w, s, steps), rid) && AllIn(w, End(w, s, steps))
    decreases |steps|
  {
    if steps != [] {
      StepStaysCovered(w, s, steps[0], rid);
      HealthyNeverUnscopes(w, s, steps[0]);
      StepKeeps(w, s, steps[0]);
      StepKeepsBacked(w, s, steps[0]);
      assert forall i :: 0 <= i < |steps[1..]| ==> steps[1..][i] == steps[i + 1];
      RunStaysCovered(w, After(w, s, steps[0]), steps[1..], rid);
    }
  }

  /** What suppression reads of a row: the statement, its scope and its purl. */
  datatype Said = Said(vexId: string, sbomId: string, purl: string)

  function Says(t: Table): set<Said> {
    set k | k in t :: Said(t[k].vexId, t[k].sbomId, t[k].productPurl)
  }

  /** Each statement that has arrived, for the SBOM it belongs to. */
  ghost function Expected(w: World, done: set<string>): set<Said>
    requires WellFormed(w)
  {
    set id | id in w.byId && w.byId[id].documentId in done :: Said(id, Home(w, w.byId[id]), HomePurl(w, w.byId[id]))
  }

  lemma CanonicalRow(w: World, s: State, k: Key)
    requires WellFormed(w) && Inv(w, s) && CanonicalBut(w, s.table, {}) && k in s.table
    ensures var row := s.table[k];
            && row.vexId in w.byId && w.byId[row.vexId].documentId in s.done
            && row.sbomId == Home(w, w.byId[row.vexId]) && row.productPurl == HomePurl(w, w.byId[row.vexId])
  {
    var row := s.table[k];
    assert RowOk(w, s.done, k, row);
    if row.sbomId == "" { assert row.vexId in w.byId; } else { assert ScopedCopy(w, row, w.byId[row.vexId]); }
  }

  lemma CanonicalSays(w: World, s: State)
    requires WellFormed(w) && Inv(w, s) && CanonicalBut(w, s.table, {})
    ensures Says(s.table) == Expected(w, s.done)
  {
    forall k | k in s.table ensures Said(s.table[k].vexId, s.table[k].sbomId, s.table[k].productPurl) in Expected(w, s.done) {
      CanonicalRow(w, s, k);
    }
    forall id | id in w.byId && w.byId[id].documentId in s.done
      ensures Said(id, Home(w, w.byId[id]), HomePurl(w, w.byId[id])) in Says(s.table)
    {
      assert HasCopy(w, s.table, w.byId[id]);
      var k := if KeyOf(w.byId[id]) in s.table then KeyOf(w.byId[id]) else ScopedKey(w, w.byId[id]);
      assert RowOk(w, s.done, k, s.table[k]);
      CanonicalRow(w, s, k);
    }
  }

  /** Once every SBOM is in, one rescue that runs to its end brings the table to
      what the documents say, whatever the order of arrival was and whatever else
      runs beside it, between any two of its lookups and writes. */
  lemma EveryOrderConverges(w: World, s: State, rid: nat, found: seq<Statement>, beside: seq<Step>, rest: seq<Step>)
    requires WellFormed(w) && Inv(w, s) && Backed(w, s) && AllIn(w, s) && Enabled(w, s, StartRescue(rid, found))
    requires HealthySteps(w, beside) && HealthySteps(w, rest)
    requires forall i :: 0 <= i < |beside| ==> LetsFinish(beside[i], rid)
    requires var u := After(w, s, StartRescue(rid, found));
             && Run(w, u, beside) && Enabled(w, End(w, u, beside), DeleteRescue(rid))
             && Run(w, After(w, End(w, u, beside), DeleteRescue(rid)), rest)
    ensures var u := After(w, s, StartRescue(rid, found));
            var e := End(w, After(w, End(w, u, beside), DeleteRescue(rid)), rest);
            Says(e.table) == Expected(w, e.done)
  {
    var start := StartRescue(rid, found);
    var u := After(w, s, start);
    StartCovers(w, s, start);
    StepKeeps(w, s, start);
    StepKeepsBacked(w, s, start);
    RunStaysCovered(w, u, beside, rid);
    HealthyIsCareful(w, u, beside);
    AfterDelete(w, End(w, u, beside), rid, rest);
  }

  lemma AfterDelete(w: World, s: State, rid: nat, rest: seq<Step>)
    requires WellFormed(w) && Inv(w, s) && Backed(w, s) && AllIn(w, s) && Enabled(w, s, DeleteRescue(rid))
    requires Covered(w, s, rid) && HealthySteps(w, rest) && Run(w, After(w, s, DeleteRescue(rid)), rest)
    ensures var e := End(w, After(w, s, DeleteRescue(rid)), rest);
            Says(e.table) == Expected(w, e.done)
  {
    var x := After(w, s, DeleteRescue(rid));
    StepKeeps(w, s, DeleteRescue(rid));
    StepKeepsBacked(w, s, DeleteRescue(rid));
    DeleteFinishes(w, s, rid);
    RunStaysCanonicalBut(w, x, rest, {});
    HealthyIsCareful(w, x, rest);
    CanonicalSays(w, End(w, x, rest));
  }

  lemma DeleteFinishes(w: World, s: State, rid: nat)
    requires WellFormed(w) && Enabled(w, s, DeleteRescue(rid)) && AllIn(w, s)
    requires Covered(w, s, rid)
    ensures CanonicalBut(w, After(w, s, DeleteRescue(rid)).table, {}) && AllIn(w, After(w, s, DeleteRescue(rid)))
  {
  }

  /** The same table that results when all SBOMs came first. */
  lemma AllSbomsFirst(w: World, steps: seq<Step>)
    requires WellFormed(w)
    requires Run(w, State(w.universe, map[], {}, map[]), steps) && HealthySteps(w, steps)
    ensures var e := End(w, State(w.universe, map[], {}, map[]), steps);
            Says(e.table) == Expected(w, e.done)
  {
    var s := State(w.universe, map[], {}, map[]);
    RunStaysCanonicalBut(w, s, steps, {});
    HealthyIsCareful(w, s, steps);
    CanonicalSays(w, End(w, s, steps));
  }

  // ---------------------------------------------------------------------
  // A job that fails between deleting and inserting
  // ---------------------------------------------------------------------

  /** The next try makes up for it: it leaves what a job without the failure would have. */
  lemma RetryCompletes(t: Table, sboms: seq<Sbom>, norm: string -> string, fails: set<string>, target: string, d: string, stmts: seq<Statement>)
    requires HasDocument(t, d) ==> HasUnscoped(t, d)
    ensures AfterVEXJob(WithoutDocument(t, d), sboms, norm, fails, target, d, stmts) == AfterVEXJob(t, sboms, norm, fails, target, d, stmts)
  {
    assert WithoutDocument(WithoutDocument(t, d), d) == WithoutDocument(t, d);
  }

  /** The table after a job of the document lost its insert and a rescue inserted meanwhile. */
  function BetweenTries(s: State, d: string, rid: nat): Table
    requires rid in s.rescues && s.rescues[rid].Chosen?
  {
    InsertAll(WithoutDocument(s.table, d), s.rescues[rid].rows)
  }

  predicate Touches(rows: seq<Statement>, d: string) {
    exists i :: 0 <= i < |rows| && rows[i].documentId == d
  }

  /** But a rescue that read the table before puts back the statements it had
      scoped, and the next try then finds the document present and fully scoped.
      Every statement is there after it if and only if the rescue put back none of
      the document's statements, or all of them. */
  lemma RetryAfterRescue(w: World, s: State, step: Step, rid: nat)
    requires WellFormed(w) && Inv(w, s) && Enabled(w, s, step) && step.VexJob? && !Skips(s, step)
    requires rid in s.rescues && s.rescues[rid].Chosen? && s.rescues[rid].left == []
    ensures var rows := s.rescues[rid].rows;
            var t := AfterVEXJob(BetweenTries(s, step.doc, rid), s.sboms, w.norm, step.fails, w.targets[step.doc], step.doc, w.docs[step.doc]);
            (forall x :: x in w.docs[step.doc] ==> x.documentId in w.targets && HasCopy(w, t, x)) <==>
            !Touches(rows, step.doc) || forall x :: x in w.docs[step.doc] ==> x.vexId in IdsOf(rows)
  {
    if Touches(s.rescues[rid].rows, step.doc) { RetrySkips(w, s, step, rid); } else { RetryInserts(w, s, step, rid); }
  }

  lemma RetrySkips(w: World, s: State, step: Step, rid: nat)
    requires WellFormed(w) && Inv(w, s) && Enabled(w, s, step) && step.VexJob?
    requires rid in s.rescues && s.rescues[rid].Chosen? && Touches(s.rescues[rid].rows, step.doc)
    ensures var t := AfterVEXJob(BetweenTries(s, step.doc, rid), s.sboms, w.norm, step.fails, w.targets[step.doc], step.doc, w.docs[step.doc]);
            forall x :: x in w.docs[step.doc] ==>
              x.documentId in w.targets && (HasCopy(w, t, x) <==> x.vexId in IdsOf(s.rescues[rid].rows))
  {
    TouchedSkips(w, s, step.doc, rid);
    forall x | x in w.docs[step.doc]
      ensures x.documentId in w.targets && (HasCopy(w, BetweenTries(s, step.doc, rid), x) <==> x.vexId in IdsOf(s.rescues[rid].rows))
    {
      BetweenHasCopy(w, s, step.doc, rid, x);
    }
  }

  lemma TouchedSkips(w: World, s: State, d: string, rid: nat)
    requires WellFormed(w) && Inv(w, s)
    requires rid in s.rescues && s.rescues[rid].Chosen? && Touches(s.rescues[rid].rows, d)
    ensures HasDocument(BetweenTries(s, d, rid), d) && !HasUnscoped(BetweenTries(s, d, rid), d)
  {
    var rows, t := s.rescues[rid].rows, BetweenTries(s, d, rid);
    var i :| 0 <= i < |rows| && rows[i].documentId == d;
    PutBackItem(w, s, rid, i);
    InsertAllAt(WithoutDocument(s.table, d), rows, KeyOf(rows[i]));
    BetweenRow(w, s, d, rid, KeyOf(rows[i]));
    assert t[KeyOf(rows[i])].documentId == d;
    BetweenScoped(w, s, d, rid);
  }

  lemma BetweenScoped(w: World, s: State, d: string, rid: nat)
    requires WellFormed(w) && Inv(w, s) && rid in s.rescues && s.rescues[rid].Chosen?
    ensures !HasUnscoped(BetweenTries(s, d, rid), d)
  {
    var t := BetweenTries(s, d, rid);
    forall k | k in t ensures !(t[k].documentId == d && t[k].sbomId == "") { BetweenRow(w, s, d, rid, k); }
  }

  lemma RetryInserts(w: World, s: State, step: Step, rid: nat)
    requires WellFormed(w) && Inv(w, s) && Enabled(w, s, step) && step.VexJob?
    requires rid in s.rescues && s.rescues[rid].Chosen? && !Touches(s.rescues[rid].rows, step.doc)
    ensures var t := AfterVEXJob(BetweenTries(s, step.doc, rid), s.sboms, w.norm, step.fails, w.targets[step.doc], step.doc, w.docs[step.doc]);
            forall x :: x in w.docs[step.doc] ==> x.documentId in w.targets && HasCopy(w, t, x)
  {
    var t := BetweenTries(s, step.doc, rid);
    forall k | k in t ensures t[k].documentId != step.doc { BetweenRow(w, s, step.doc, rid, k); }
    forall x | x in w.docs[step.doc] ensures HasCopy(w, InsertAll(WithoutDocument(t, step.doc), JobRows(w, s, step)), x) {
      JobInserts(w, s, step, WithoutDocument(t, step.doc), x);
    }
  }

  lemma PutBackItem(w: World, s: State, rid: nat, i: nat)
    requires WellFormed(w) && Inv(w, s) && rid in s.rescues && s.rescues[rid].Chosen? && i < |s.rescues[rid].rows|
    ensures var x := s.rescues[rid].rows[i];
            x.sbomId != "" && x.vexId in w.byId && x.documentId == w.byId[x.vexId].documentId && KeyOf(x) == ScopedKey(w, w.byId[x.vexId])
  {
    assert RescueOk(w, s.done, s.table, s.rescues[rid]);
    ItemKey(w, s.done, s.rescues[rid].rows[i]);
  }

  /** A row of the document is one the rescue put back, with a scope. */
  lemma BetweenRow(w: World, s: State, d: string, rid: nat, k: Key)
    requires WellFormed(w) && Inv(w, s) && rid in s.rescues && s.rescues[rid].Chosen? && k in BetweenTries(s, d, rid)
    ensures var row, rows := BetweenTries(s, d, rid)[k], s.rescues[rid].rows;
            && (row.documentId == d ==> row.sbomId != "" && Touches(rows, d))
            && (k.vexId in w.byId ==> row.documentId == w.byId[k.vexId].documentId)
  {
    var rest, rows := WithoutDocument(s.table, d), s.rescues[rid].rows;
    InsertAllAt(rest, rows, k);
    if i :| 0 <= i < |rows| && KeyOf(rows[i]) == k && BetweenTries(s, d, rid)[k] == Stored(rows[i]) {
      PutBackItem(w, s, rid, i);
    } else {
      assert RowOk(w, s.done, k, s.table[k]);
    }
  }

  lemma BetweenKey(w: World, s: State, d: string, rid: nat, k: Key)
    requires WellFormed(w) && Inv(w, s) && rid in s.rescues && s.rescues[rid].Chosen?
    requires k.vexId in w.byId && w.byId[k.vexId].documentId == d
    ensures k in BetweenTries(s, d, rid) <==> exists i :: 0 <= i < |s.rescues[rid].rows| && KeyOf(s.rescues[rid].rows[i]) == k
  {
    InsertAllAt(WithoutDocument(s.table, d), s.rescues[rid].rows, k);
    DocumentRowsGo(w, s, d, k);
  }

  lemma BetweenHasCopy(w: World, s: State, d: string, rid: nat, x: Statement)
    requires WellFormed(w) && Inv(w, s) && d in w.docs && x in w.docs[d]
    requires rid in s.rescues && s.rescues[rid].Chosen?
    ensures HasCopy(w, BetweenTries(s, d, rid), x) <==> x.vexId in IdsOf(s.rescues[rid].rows)
  {
    BetweenKey(w, s, d, rid, KeyOf(x));
    BetweenKey(w, s, d, rid, ScopedKey(w, x));
    var rows := s.rescues[rid].rows;
    if x.vexId in IdsOf(rows) {
      var i :| 0 <= i < |rows| && rows[i].vexId == x.vexId;
      assert RescueOk(w, s.done, s.table, s.rescues[rid]);
      ItemKey(w, s.done, rows[i]);
    }
  }

  /** Whatever the table, a job's insert leaves a copy of each of its statements. */
  lemma JobInserts(w: World, s: State, step: Step, rest: Table, x: Statement)
    requires WellFormed(w) && Inv(w, s) && Enabled(w, s, step) && step.VexJob? && x in w.docs[step.doc]
    ensures HasCopy(w, InsertAll(rest, JobRows(w, s, step)), x)
  {
    var rows := JobRows(w, s, step);
    JobRowsOf(w, s, step, x);
    JobRowOk(w, s, step.doc, step.fails, x);
    InsertAllAt(rest, rows, KeyOf(ScopeOne(s.sboms, w.norm, step.fails, w.targets[step.doc], x)));
  }

  // ---------------------------------------------------------------------
  // Shared vex ids
  // ---------------------------------------------------------------------

  predicate Keeps(t: Table, row: Statement) {
    KeyOf(row) in t && t[KeyOf(row)] == Stored(row)
  }

  /** Different rows of one key. */
  predicate Clash(a: Statement, b: Statement) {
    KeyOf(a) == KeyOf(b) && Stored(a) != Stored(b)
  }

  ghost predicate AllKept(t: Table, rows: seq<Statement>) {
    forall i :: 0 <= i < |rows| ==> Keeps(t, rows[i])
  }

  ghost predicate NoneClash(rows: seq<Statement>) {
    forall i, j :: 0 <= i < |rows| && 0 <= j < |rows| ==> !Clash(rows[i], rows[j])
  }

  lemma KeptDoNotClash(t: Table, rows: seq<Statement>)
    requires AllKept(t, rows)
    ensures NoneClash(rows)
  {
    forall i, j | 0 <= i < |rows| && 0 <= j < |rows| ensures !Clash(rows[i], rows[j]) {
      assert Keeps(t, rows[i]) && Keeps(t, rows[j]);
    }
  }

  /** Of rows inserted together, every one is in the table afterwards if and only
      if rows of one key are equal. */
  lemma EveryRowKept(t: Table, rows: seq<Statement>)
    ensures AllKept(InsertAll(t, rows), rows) <==> NoneClash(rows)
  {
    var after := InsertAll(t, rows);
    if NoneClash(rows) {
      forall i | 0 <= i < |rows| ensures Keeps(after, rows[i]) {
        InsertAllAt(t, rows, KeyOf(rows[i]));
        var j :| 0 <= j < |rows| && KeyOf(rows[j]) == KeyOf(rows[i]) && after[KeyOf(rows[i])] == Stored(rows[j]);
        assert !Clash(rows[i], rows[j]);
      }
    }
    if AllKept(after, rows) { KeptDoNotClash(after, rows); }
  }

  /** Two statements that become different rows under one key. */
  ghost predicate Collide(sboms: seq<Sbom>, norm: string -> string, fails: set<string>, target: string, a: Statement, b: Statement) {
    Clash(ScopeOne(sboms, norm, fails, target, a), ScopeOne(sboms, norm, fails, target, b))
  }

  /** A document that is not skipped has the row of each of its statements in the
      table, with the scope found for it, if and only if no two of them collide. */
  lemma EveryScopeKept(t: Table, sboms: seq<Sbom>, norm: string -> string, fails: set<string>, target: string, d: string, stmts: seq<Statement>)
    requires HasDocument(t, d) ==> HasUnscoped(t, d)
    ensures (forall x :: x in stmts ==> Keeps(AfterVEXJob(t, sboms, norm, fails, target, d, stmts), ScopeOne(sboms, norm, fails, target, x))) <==>
            (forall a, b :: a in stmts && b in stmts ==> !Collide(sboms, norm, fails, target, a, b))
  {
    var rows := ScopeAll(sboms, norm, fails, target, stmts);
    EveryRowKept(WithoutDocument(t, d), rows);
    var after := AfterVEXJob(t, sboms, norm, fails, target, d, stmts);
    assert after == InsertAll(WithoutDocument(t, d), rows);
    AllRowsAllStatements(after, sboms, norm, fails, target, stmts);
    SomeRowsSomeStatements(sboms, norm, fails, target, stmts);
  }

  lemma AllRowsAllStatements(t: Table, sboms: seq<Sbom>, norm: string -> string, fails: set<string>, target: string, stmts: seq<Statement>)
    ensures var rows := ScopeAll(sboms, norm, fails, target, stmts);
            (forall x :: x in stmts ==> Keeps(t, ScopeOne(sboms, norm, fails, target, x))) <==> AllKept(t, rows)
  {
    var rows := ScopeAll(sboms, norm, fails, target, stmts);
    forall i | 0 <= i < |rows| ensures stmts[i] in stmts && rows[i] == ScopeOne(sboms, norm, fails, target, stmts[i]) {}
  }

  lemma SomeRowsSomeStatements(sboms: seq<Sbom>, norm: string -> string, fails: set<string>, target: string, stmts: seq<Statement>)
    ensures var rows := ScopeAll(sboms, norm, fails, target, stmts);
            (forall a, b :: a in stmts && b in stmts ==> !Collide(sboms, norm, fails, target, a, b)) <==>
            NoneClash(rows)
  {
    var rows := ScopeAll(sboms, norm, fails, target, stmts);
    if i, j :| 0 <= i < |rows| && 0 <= j < |rows| && Clash(rows[i], rows[j]) {
      assert stmts[i] in stmts && stmts[j] in stmts && Collide(sboms, norm, fails, target, stmts[i], stmts[j]);
    }
    if a, b :| a in stmts && b in stmts && Collide(sboms, norm, fails, target, a, b) {
      var i, j :| 0 <= i < |stmts| && 0 <= j < |stmts| && stmts[i] == a && stmts[j] == b;
      assert Clash(rows[i], rows[j]);
    }
  }

  /** A vex id is a hash of the document, the vulnerability and the purl, not of
      the product. Two products of one document that share a subcomponent give
      two statements with one vex id, and the table keeps the scope of one. */
  lemma SharedSubcomponentKeepsOneScope(t: Table, sboms: seq<Sbom>, norm: string -> string, a: Statement, b: Statement,
                                        hash: (string, string, string) -> string)
    requires a.vexId == hash(a.documentId, a.vulnId, a.productPurl) && b.vexId == hash(b.documentId, b.vulnId, b.productPurl)
    requires a.documentId == b.documentId && a.vulnId == b.vulnId && a.productPurl == b.productPurl
    requires Parsed(a) && Parsed(b) && !a.productWide && !b.productWide && !HasDocument(t, a.documentId)
    requires "" != Resolve(sboms, norm, {}, a.productRef) && Resolve(sboms, norm, {}, b.productRef) != ""
    requires Resolve(sboms, norm, {}, a.productRef) != Resolve(sboms, norm, {}, b.productRef)
    ensures var after := AfterVEXJob(t, sboms, norm, {}, "", a.documentId, [a, b]);
            forall k :: k in after && after[k].documentId == a.documentId ==> after[k].sbomId == Resolve(sboms, norm, {}, b.productRef)
  {
    var rows := ScopeAll(sboms, norm, {}, "", [a, b]);
    assert rows[..1][..0] == [] && rows[..1][0] == rows[0];
    assert WithoutDocument(t, a.documentId) == t;
    assert InsertAll(t, rows) == InsertAll(t, rows[..1])[KeyOf(rows[1]) := Stored(rows[1])];
    assert InsertAll(t, rows[..1]) == t[KeyOf(rows[0]) := Stored(rows[0])];
  }
}
