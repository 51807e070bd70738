/** The append-only job queue (internal/clickhouse/queue.go). A job's state is
    its row with the greatest created_at; every transition is one more row.
    Instants are milliseconds; the two DateTime columns hold whole seconds. */
module Queue {
  import opened Text

  // ---------------------------------------------------------------------
  // Rows and the state they amount to
  // ---------------------------------------------------------------------

  datatype Status = Pending | Processing | Done | Failed

  /** The columns every transition copies from the row before. */
  datatype Payload = Payload(
    sourceFile: string, sha256: string, jobType: string,
    cluster: string, namespace: string, project: string,
    sourceRepo: string, sourceRef: string, targetSbomId: string,
    tags: seq<string>, parent: string)

  type JobId = nat

  datatype Row = Row(
    created: int, job: JobId, payload: Payload, status: Status,
    claimedBy: string, claimedAt: Option<int>, errorMessage: string, retryAfter: int)

  /** What the queue says about one job: when it was first enqueued, and its
      latest row. */
  datatype Entry = Entry(first: int, latest: Row)

  type Table = map<JobId, Entry>

  function Min(a: int, b: int): int { if a <= b then a else b }

  function Seconds(t: int): int { t / 1000 }

  function Apply(t: Table, row: Row): Table {
    if row.job !in t then t[row.job := Entry(row.created, row)]
    else
      var e := t[row.job];
      t[row.job := Entry(Min(e.first, row.created), if row.created > e.latest.created then row else e.latest)]
  }

  /** One entry per job, as the grouped query reads them. */
  function Latest(log: seq<Row>): Table {
    if log == [] then map[] else Apply(Latest(log[..|log| - 1]), log[|log| - 1])
  }

  lemma LatestAppend(log: seq<Row>, row: Row)
    ensures Latest(log + [row]) == Apply(Latest(log), row)
  {
    assert (log + [row])[..|log|] == log;
  }

  /** The entry holds the least and the greatest created_at of the job's rows,
      and a row that attains the greatest. */
  lemma {:induction false} LatestIsArgMax(log: seq<Row>, job: JobId)
    ensures job in Latest(log) <==> exists r :: r in log && r.job == job
    ensures job in Latest(log) ==>
              && Latest(log)[job].latest in log && Latest(log)[job].latest.job == job
              && forall r :: r in log && r.job == job ==>
                   Latest(log)[job].first <= r.created <= Latest(log)[job].latest.created
    ensures job in Latest(log) ==> exists r :: r in log && r.job == job && r.created == Latest(log)[job].first
  {
    if log != [] {
      var n := |log| - 1;
      LatestIsArgMax(log[..n], job);
      assert log == log[..n] + [log[n]];
    }
  }

  // ---------------------------------------------------------------------
  // Transitions
  // ---------------------------------------------------------------------

  /** A job as a worker holds it: the entry it read, or the claim it wrote. */
  datatype Job = Job(id: JobId, payload: Payload, createdAt: int, version: int, claimedBy: string, claimedAt: Option<int>)

  function JobOf(id: JobId, e: Entry): Job {
    Job(id, e.latest.payload, e.first, e.latest.created, "", None)
  }

  /** The created_at of a transition, given the server's clock. */
  function NextVersion(clock: int, version: int): int {
    if clock >= version + 1 then clock else version + 1
  }

  function Claimed(job: Job, worker: string, clock: int): Job {
    var v := NextVersion(clock, job.version);
    job.(version := v, claimedBy := worker, claimedAt := Some(Seconds(v)))
  }

  function ClaimRow(claimed: Job): Row {
    Row(claimed.version, claimed.id, claimed.payload, Processing, claimed.claimedBy, claimed.claimedAt, "", 0)
  }

  function DeferRow(job: Job, clock: int, retryAfter: int, reason: string): Row {
    Row(NextVersion(clock, job.version), job.id, job.payload, Pending, "", None, reason, Seconds(retryAfter))
  }

  function DoneRow(job: Job, clock: int): Row {
    Row(NextVersion(clock, job.version), job.id, job.payload, Done, job.claimedBy, job.claimedAt, "", 0)
  }

  function FailRow(job: Job, clock: int, message: string): Row {
    Row(NextVersion(clock, job.version), job.id, job.payload, Failed, job.claimedBy, job.claimedAt, message, 0)
  }

  function EnqueueRow(job: JobId, payload: Payload, created: int, retryAfter: int): Row {
    Row(created, job, payload, Pending, "", None, "", Seconds(retryAfter))
  }

  /** A transition away from a version somebody read takes effect exactly when
      its created_at is above the latest: always when the version read is the
      latest one, whatever the server's clock says. */
  lemma TransitionTakesEffect(t: Table, row: Row, version: int, clock: int)
    requires row.job in t && row.created == NextVersion(clock, version)
    ensures Apply(t, row)[row.job].latest == row || Apply(t, row)[row.job].latest == t[row.job].latest
    ensures row != t[row.job].latest ==>
              (Apply(t, row)[row.job].latest == row <==> t[row.job].latest.created < NextVersion(clock, version))
    ensures version == t[row.job].latest.created ==> Apply(t, row)[row.job].latest == row
  {
  }

  // ---------------------------------------------------------------------
  // The log refines a plain job map
  // ---------------------------------------------------------------------

  /** One change of the queue: a job enqueued under a fresh id, or a transition
      of an existing job written against its latest row. */
  datatype Change =
    | Enqueue(job: JobId, payload: Payload, created: int, retryAfter: int)
    | Claim(job: JobId, clock: int, worker: string)
    | Defer(job: JobId, clock: int, retryAfter: int, reason: string)
    | Complete(job: JobId, clock: int, worker: string, claimedAt: Option<int>)
    | Fail(job: JobId, clock: int, worker: string, claimedAt: Option<int>, message: string)

  predicate Possible(t: Table, c: Change) {
    if c.Enqueue? then c.job !in t else c.job in t
  }

  function RowOf(t: Table, c: Change): Row
    requires Possible(t, c)
  {
    match c
    case Enqueue(id, payload, created, retryAfter) => EnqueueRow(id, payload, created, retryAfter)
    case Claim(id, clock, worker) => ClaimRow(Claimed(JobOf(id, t[id]), worker, clock))
    case Defer(id, clock, retryAfter, reason) => DeferRow(JobOf(id, t[id]), clock, retryAfter, reason)
    case Complete(id, clock, worker, at) => DoneRow(JobOf(id, t[id]).(claimedBy := worker, claimedAt := at), clock)
    case Fail(id, clock, worker, at, message) => FailRow(JobOf(id, t[id]).(claimedBy := worker, claimedAt := at), clock, message)
  }

  /** A version just above the one written against, or the clock. */
  function Above(clock: int, version: int): int {
    if clock > version then clock else version + 1
  }

  /** What each change writes, column by column. */
  lemma ChangeWrites(t: Table, c: Change)
    requires Possible(t, c)
    ensures RowOf(t, c) ==
            match c
            case Enqueue(id, payload, created, retryAfter) => Row(created, id, payload, Pending, "", None, "", retryAfter / 1000)
            case Claim(id, clock, worker) =>
              var v := Above(clock, t[id].latest.created);
              Row(v, id, t[id].latest.payload, Processing, worker, Some(v / 1000), "", 0)
            case Defer(id, clock, retryAfter, reason) =>
              Row(Above(clock, t[id].latest.created), id, t[id].latest.payload, Pending, "", None, reason, retryAfter / 1000)
            case Complete(id, clock, worker, at) =>
              Row(Above(clock, t[id].latest.created), id, t[id].latest.payload, Done, worker, at, "", 0)
            case Fail(id, clock, worker, at, message) =>
              Row(Above(clock, t[id].latest.created), id, t[id].latest.payload, Failed, worker, at, message, 0)
  {
  }

  /** A plain mutable map: the new row overwrites the old one. */
  function Overwrite(t: Table, row: Row): Table {
    t[row.job := Entry(if row.job in t then t[row.job].first else row.created, row)]
  }

  /** Every first is at most the latest version. */
  ghost predicate Ordered(t: Table) {
    forall id :: id in t ==> t[id].latest.job == id && t[id].first <= t[id].latest.created
  }

  lemma {:induction false} LatestOrdered(log: seq<Row>)
    ensures Ordered(Latest(log))
  {
    if log != [] { LatestOrdered(log[..|log| - 1]); }
  }

  ghost predicate PossibleRun(t: Table, changes: seq<Change>)
    decreases |changes|
  {
    changes == [] || (Possible(t, changes[0]) && PossibleRun(Overwrite(t, RowOf(t, changes[0])), changes[1..]))
  }

  function RunMap(t: Table, changes: seq<Change>): Table
    requires PossibleRun(t, changes)
    decreases |changes|
  {
    if changes == [] then t else RunMap(Overwrite(t, RowOf(t, changes[0])), changes[1..])
  }

  function RunLog(log: seq<Row>, changes: seq<Change>): seq<Row>
    decreases |changes|
  {
    if changes == [] || !Possible(Latest(log), changes[0]) then log
    else RunLog(log + [RowOf(Latest(log), changes[0])], changes[1..])
  }

  lemma ChangeOverwrites(log: seq<Row>, c: Change)
    requires Possible(Latest(log), c)
    ensures Latest(log + [RowOf(Latest(log), c)]) == Overwrite(Latest(log), RowOf(Latest(log), c))
  {
    LatestAppend(log, RowOf(Latest(log), c));
    LatestOrdered(log);
  }

  /** Read through the latest rows, the log behaves as the plain map does, for
      every run and whatever the server's clock showed at each step. */
  lemma {:induction false} LogRefinesMap(log: seq<Row>, changes: seq<Change>)
    requires PossibleRun(Latest(log), changes)
    ensures Latest(RunLog(log, changes)) == RunMap(Latest(log), changes)
    decreases |changes|
  {
    if changes != [] {
      ChangeOverwrites(log, changes[0]);
      LogRefinesMap(log + [RowOf(Latest(log), changes[0])], changes[1..]);
    }
  }

  /** No run changes what a job is or its place in the claim order. */
  lemma {:induction false} RunConserves(t: Table, changes: seq<Change>, id: JobId)
    requires id in t && Ordered(t) && PossibleRun(t, changes)
    ensures id in RunMap(t, changes)
    ensures RunMap(t, changes)[id].first == t[id].first
    ensures RunMap(t, changes)[id].latest.payload == t[id].latest.payload
    ensures RunMap(t, changes)[id].latest.created >= t[id].latest.created
    ensures RunMap(t, changes)[id].latest.created == t[id].latest.created ==> RunMap(t, changes)[id] == t[id]
    decreases |changes|
  {
    if changes != [] {
      var next := Overwrite(t, RowOf(t, changes[0]));
      RunConserves(next, changes[1..], id);
    }
  }

  // ---------------------------------------------------------------------
  // The client of the table
  // ---------------------------------------------------------------------

  /** What a limited, ordered query over the grouped rows may return. */
  ghost predicate Selected(t: Table, where: Entry -> bool, limit: nat, jobs: seq<Job>) {
    && |jobs| <= limit
    && Distinct(jobs)
    && (forall i :: 0 <= i < |jobs| ==> Matches(t, where, jobs[i]))
    && OldestFirst(jobs)
    && (forall id :: id in t && where(t[id]) && !Lists(jobs, id) ==>
          |jobs| == limit && forall i :: 0 <= i < |jobs| ==> jobs[i].createdAt <= t[id].first)
  }

  ghost predicate Distinct(jobs: seq<Job>) {
    forall i, j :: 0 <= i < j < |jobs| ==> jobs[i].id != jobs[j].id
  }

  ghost predicate OldestFirst(jobs: seq<Job>) {
    forall i, j :: 0 <= i < j < |jobs| ==> jobs[i].createdAt <= jobs[j].createdAt
  }

  predicate Matches(t: Table, where: Entry -> bool, job: Job) {
    job.id in t && where(t[job.id]) && job == JobOf(job.id, t[job.id])
  }

  predicate Lists(jobs: seq<Job>, id: JobId) {
    exists i :: 0 <= i < |jobs| && jobs[i].id == id
  }

  function InsertAt(jobs: seq<Job>, k: nat, job: Job): seq<Job>
    requires k <= |jobs|
  {
    jobs[..k] + [job] + jobs[k..]
  }

  lemma InsertAtMembers(jobs: seq<Job>, k: nat, job: Job, x: Job)
    requires k <= |jobs|
    ensures x in InsertAt(jobs, k, job) <==> x == job || x in jobs
  {
    assert jobs == jobs[..k] + jobs[k..];
  }

  /** Puts a job behind every job that is not younger. */
  method Place(jobs: seq<Job>, job: Job) returns (r: seq<Job>)
    requires OldestFirst(jobs) && Distinct(jobs) && !Lists(jobs, job.id)
    ensures OldestFirst(r) && Distinct(r)
    ensures forall x :: x in r <==> x == job || x in jobs
  {
    var k := |jobs|;
    while k > 0 && jobs[k - 1].createdAt > job.createdAt
      invariant 0 <= k <= |jobs|
      invariant k < |jobs| ==> jobs[k].createdAt > job.createdAt
    {
      k := k - 1;
    }
    r := InsertAt(jobs, k, job);
    forall x ensures x in r <==> x == job || x in jobs { InsertAtMembers(jobs, k, job, x); }
  }

  // ---------------------------------------------------------------------
  // Several transitions at once
  // ---------------------------------------------------------------------

  /** The rows supersede the entries of as many different jobs. */
  ghost predicate Supersede(t: Table, rows: seq<Row>) {
    && (forall i :: 0 <= i < |rows| ==> rows[i].job in t && t[rows[i].job].latest.created < rows[i].created)
    && (forall i, j :: 0 <= i < j < |rows| ==> rows[i].job != rows[j].job)
  }

  predicate Writes(rows: seq<Row>, id: JobId) {
    exists i :: 0 <= i < |rows| && rows[i].job == id
  }

  /** t with each row in place of its job's latest. */
  ghost predicate Superseded(t: Table, rows: seq<Row>, after: Table) {
    && after.Keys == t.Keys
    && (forall i :: 0 <= i < |rows| ==> rows[i].job in t && after[rows[i].job] == Entry(t[rows[i].job].first, rows[i]))
    && (forall id :: id in t && !Writes(rows, id) ==> after[id] == t[id])
  }

  lemma SupersedeOne(t: Table, rows: seq<Row>, row: Row, after: Table)
    requires Ordered(t) && Superseded(t, rows, after) && !Writes(rows, row.job)
    requires row.job in t && t[row.job].latest.created < row.created
    ensures Superseded(t, rows + [row], Apply(after, row))
  {
    var all := rows + [row];
    forall id ensures Writes(all, id) <==> Writes(rows, id) || id == row.job {
      if Writes(rows, id) {
        var i :| 0 <= i < |rows| && rows[i].job == id;
        assert all[i].job == id;
      }
      assert all[|rows|] == row;
    }
  }

  function ApplyAll(t: Table, rows: seq<Row>): Table {
    if rows == [] then t else Apply(ApplyAll(t, rows[..|rows| - 1]), rows[|rows| - 1])
  }

  lemma {:induction false} LatestAppendAll(log: seq<Row>, rows: seq<Row>)
    ensures Latest(log + rows) == ApplyAll(Latest(log), rows)
  {
    if rows == [] {
      assert log + rows == log;
    } else {
      var n := |rows| - 1;
      LatestAppendAll(log, rows[..n]);
      assert log + rows == (log + rows[..n]) + [rows[n]];
      LatestAppend(log + rows[..n], rows[n]);
    }
  }

  lemma {:induction false} ApplyAllSupersedes(t: Table, rows: seq<Row>)
    requires Ordered(t) && Supersede(t, rows)
    ensures Superseded(t, rows, ApplyAll(t, rows))
  {
    if rows != [] {
      var n := |rows| - 1;
      assert rows[n].job in t && t[rows[n].job].latest.created < rows[n].created;
      ApplyAllSupersedes(t, rows[..n]);
      SupersedeOne(t, rows[..n], rows[n], ApplyAll(t, rows[..n]));
      assert rows[..n] + [rows[n]] == rows;
    }
  }

  lemma SupersedeAll(log: seq<Row>, rows: seq<Row>)
    requires Supersede(Latest(log), rows)
    ensures Superseded(Latest(log), rows, Latest(log + rows))
  {
    LatestOrdered(log);
    ApplyAllSupersedes(Latest(log), rows);
    LatestAppendAll(log, rows);
  }

  /** The rows that put selected jobs back, one server clock reading each. */
  function DeferRows(jobs: seq<Job>, clock: nat -> int, retryAfter: int, reason: string): (rows: seq<Row>)
    ensures |rows| == |jobs|
  {
    seq(|jobs|, i requires 0 <= i < |jobs| => DeferRow(jobs[i], clock(i), retryAfter, reason))
  }

  lemma DeferRowsSupersede(t: Table, where: Entry -> bool, limit: nat, jobs: seq<Job>,
                           clock: nat -> int, retryAfter: int, reason: string)
    requires Selected(t, where, limit, jobs)
    ensures Supersede(t, DeferRows(jobs, clock, retryAfter, reason))
  {
    var rows := DeferRows(jobs, clock, retryAfter, reason);
    forall i | 0 <= i < |rows| ensures rows[i].job in t && t[rows[i].job].latest.created < rows[i].created {
      assert rows[i] == DeferRow(jobs[i], clock(i), retryAfter, reason);
      assert Matches(t, where, jobs[i]);
    }
    forall i, j | 0 <= i < j < |rows| ensures rows[i].job != rows[j].job {
      assert rows[i] == DeferRow(jobs[i], clock(i), retryAfter, reason);
      assert rows[j] == DeferRow(jobs[j], clock(j), retryAfter, reason);
    }
  }

  /** An entry and what it becomes when its job is deferred: pending, nobody's,
      due from the given second on. */
  predicate Deferred(before: Entry, after: Entry, due: int, reason: string) {
    && after.first == before.first
    && after.latest.job == before.latest.job && after.latest.payload == before.latest.payload
    && after.latest.status == Pending && after.latest.claimedBy == "" && after.latest.claimedAt == None
    && after.latest.retryAfter == due && after.latest.errorMessage == reason
    && after.latest.created > before.latest.created
  }

  /** What deferring every selected job leaves: those jobs pending, the others
      as they were, and no matching job left unless the limit was reached. */
  ghost predicate PutBack(t: Table, where: Entry -> bool, limit: nat, jobs: seq<Job>, due: int, reason: string, after: Table) {
    && after.Keys == t.Keys
    && (forall id :: id in t ==>
          if Lists(jobs, id) then where(t[id]) && Deferred(t[id], after[id], due, reason) else after[id] == t[id])
    && (|jobs| < limit ==> forall id :: id in t && where(t[id]) ==> Lists(jobs, id))
  }

  lemma DeferRowsPutBackOne(t: Table, where: Entry -> bool, jobs: seq<Job>, i: nat, clock: nat -> int,
                            retryAfter: int, reason: string, after: Table)
    requires i < |jobs| && Matches(t, where, jobs[i]) && Ordered(t)
    requires Superseded(t, DeferRows(jobs, clock, retryAfter, reason), after)
    ensures jobs[i].id in t && jobs[i].id in after
    ensures where(t[jobs[i].id]) && Deferred(t[jobs[i].id], after[jobs[i].id], retryAfter / 1000, reason)
  {
    var rows := DeferRows(jobs, clock, retryAfter, reason);
    assert rows[i] == DeferRow(jobs[i], clock(i), retryAfter, reason);
    assert after[rows[i].job] == Entry(t[rows[i].job].first, rows[i]);
  }

  lemma DeferRowsSpare(t: Table, jobs: seq<Job>, id: JobId, clock: nat -> int, retryAfter: int, reason: string, after: Table)
    requires id in t && !Lists(jobs, id)
    requires Superseded(t, DeferRows(jobs, clock, retryAfter, reason), after)
    ensures after[id] == t[id]
  {
    var rows := DeferRows(jobs, clock, retryAfter, reason);
    forall i | 0 <= i < |rows| ensures rows[i].job != id {
      assert rows[i] == DeferRow(jobs[i], clock(i), retryAfter, reason);
    }
    assert !Writes(rows, id);
  }

  lemma DeferRowsPutBack(t: Table, where: Entry -> bool, limit: nat, jobs: seq<Job>,
                         clock: nat -> int, retryAfter: int, reason: string, after: Table)
    requires Selected(t, where, limit, jobs) && Ordered(t)
    requires Superseded(t, DeferRows(jobs, clock, retryAfter, reason), after)
    ensures PutBack(t, where, limit, jobs, retryAfter / 1000, reason, after)
  {
    assert forall i :: 0 <= i < |jobs| ==> Matches(t, where, jobs[i]);
    assert |jobs| < limit ==> forall id :: id in t && where(t[id]) ==> Lists(jobs, id);
    forall id | id in t
      ensures if Lists(jobs, id) then where(t[id]) && Deferred(t[id], after[id], retryAfter / 1000, reason) else after[id] == t[id]
    {
      if Lists(jobs, id) {
        var i :| 0 <= i < |jobs| && jobs[i].id == id;
        DeferRowsPutBackOne(t, where, jobs, i, clock, retryAfter, reason, after);
      } else {
        DeferRowsSpare(t, jobs, id, clock, retryAfter, reason, after);
      }
    }
  }

  predicate PendingAndDue(e: Entry, clock: int) {
    e.latest.status == Pending && e.latest.retryAfter <= Seconds(clock)
  }

  predicate OwnClaim(e: Entry, worker: string) {
    e.latest.status == Processing && e.latest.claimedBy == worker
  }

  const StaleAfter := 3600

  predicate StaleClaim(e: Entry, clock: int) {
    e.latest.status == Processing && e.latest.claimedAt.Some? && e.latest.claimedAt.value < Seconds(clock) - StaleAfter
  }

  const SbomType := "sbom"

  const SweepLimit := 10000

  const SweepMessage := "requeued: processing for more than 1h0m0s"

  // ---------------------------------------------------------------------
  // Claims
  // ---------------------------------------------------------------------

  /** Turns every selected job into a claim, in place. */
  method MarkClaimed(jobs: array<Job>, worker: string, serverNow: int)
    modifies jobs
    ensures forall i :: 0 <= i < jobs.Length ==> jobs[i] == Claimed(old(jobs[i]), worker, serverNow)
  {
    for i := 0 to jobs.Length
      invariant forall k :: 0 <= k < i ==> jobs[k] == Claimed(old(jobs[k]), worker, serverNow)
      invariant forall k :: i <= k < jobs.Length ==> jobs[k] == old(jobs[k])
    {
      var version := serverNow;
      if jobs[i].version + 1 > version { version := jobs[i].version + 1; }
      jobs[i] := jobs[i].(version := version, claimedBy := worker, claimedAt := Some(Seconds(version)));
    }
  }

  function ClaimRows(claims: seq<Job>): (rows: seq<Row>)
    ensures |rows| == |claims|
  {
    seq(|claims|, i requires 0 <= i < |claims| => ClaimRow(claims[i]))
  }

  /** The table says that the worker holds exactly this claim. */
  ghost predicate Owned(t: Table, worker: string, claim: Job) {
    && claim.id in t && t[claim.id].first == claim.createdAt
    && t[claim.id].latest ==
       Row(claim.version, claim.id, claim.payload, Processing, worker, Some(claim.version / 1000), "", 0)
  }

  predicate Confirms(t: Table, worker: string, claim: Job) {
    claim.id in t && t[claim.id].latest.status == Processing && t[claim.id].latest.claimedBy == worker
  }

  /** The claims whose job is, by its latest row, processing for the worker. */
  function Confirmed(t: Table, worker: string, claims: seq<Job>): seq<Job> {
    if claims == [] then []
    else
      var n := |claims| - 1;
      Confirmed(t, worker, claims[..n]) + (if Confirms(t, worker, claims[n]) then [claims[n]] else [])
  }

  lemma {:induction false} AllConfirmed(t: Table, worker: string, claims: seq<Job>)
    requires forall i :: 0 <= i < |claims| ==> Owned(t, worker, claims[i])
    ensures Confirmed(t, worker, claims) == claims
  {
    if claims != [] {
      AllConfirmed(t, worker, claims[..|claims| - 1]);
      assert claims[..|claims| - 1] + [claims[|claims| - 1]] == claims;
      assert Owned(t, worker, claims[|claims| - 1]);
    }
  }

  /** The claims are the due jobs that come first, each now held by the worker;
      every other job is as it was. */
  ghost predicate ClaimsDue(t: Table, worker: string, limit: nat, sqlNow: int, serverNow: int, claims: seq<Job>, after: Table) {
    && |claims| <= limit && after.Keys == t.Keys && Distinct(claims) && OldestFirst(claims)
    && (forall i :: 0 <= i < |claims| ==> Owned(after, worker, claims[i]) && Takes(t, sqlNow, serverNow, claims[i]))
    && (forall id :: id in t && !Lists(claims, id) ==> after[id] == t[id] && PassedOver(t, id, sqlNow, limit, claims))
  }

  /** The claim is of a pending job whose time has come, just above its version. */
  ghost predicate Takes(t: Table, sqlNow: int, serverNow: int, claim: Job) {
    && claim.id in t
    && var was := t[claim.id].latest;
       && was.status == Pending && was.retryAfter <= sqlNow / 1000
       && claim.payload == was.payload && claim.createdAt == t[claim.id].first
       && claim.version == (if serverNow > was.created then serverNow else was.created + 1)
  }

  /** A job left alone is not due, or the limit went to older ones. */
  ghost predicate PassedOver(t: Table, id: JobId, sqlNow: int, limit: nat, claims: seq<Job>)
    requires id in t
  {
    t[id].latest.status == Pending && t[id].latest.retryAfter <= sqlNow / 1000 ==>
      |claims| == limit && forall i :: 0 <= i < |claims| ==> claims[i].createdAt <= t[id].first
  }

  lemma ClaimIsDue(t: Table, worker: string, sqlNow: int, found: Job, serverNow: int, claims: seq<Job>, i: nat, after: Table)
    requires i < |claims| && claims[i] == Claimed(found, worker, serverNow)
    requires Matches(t, e => PendingAndDue(e, sqlNow), found)
    requires Superseded(t, ClaimRows(claims), after)
    ensures Owned(after, worker, claims[i]) && Takes(t, sqlNow, serverNow, claims[i])
  {
    var rows := ClaimRows(claims);
    assert rows[i] == ClaimRow(claims[i]);
    assert after[rows[i].job] == Entry(t[rows[i].job].first, rows[i]);
  }

  lemma ClaimsAreDue(t: Table, worker: string, limit: nat, sqlNow: int, found: seq<Job>, serverNow: int, claims: seq<Job>, after: Table)
    requires Selected(t, e => PendingAndDue(e, sqlNow), limit, found) && |claims| == |found|
    requires forall i :: 0 <= i < |found| ==> claims[i] == Claimed(found[i], worker, serverNow)
    requires Superseded(t, ClaimRows(claims), after)
    ensures ClaimsDue(t, worker, limit, sqlNow, serverNow, claims, after)
  {
    var rows := ClaimRows(claims);
    forall i | 0 <= i < |claims| ensures Owned(after, worker, claims[i]) && Takes(t, sqlNow, serverNow, claims[i]) {
      ClaimIsDue(t, worker, sqlNow, found[i], serverNow, claims, i, after);
    }
    forall id | id in t && !Lists(claims, id) ensures after[id] == t[id] && PassedOver(t, id, sqlNow, limit, claims) {
      forall i | 0 <= i < |rows| ensures rows[i].job != id { assert rows[i] == ClaimRow(claims[i]); }
      assert !Writes(rows, id);
      forall i | 0 <= i < |found| ensures found[i].id != id { assert claims[i].id == found[i].id; }
      assert !Lists(found, id);
    }
  }

  /** A transition away from the version in hand: the job gets the new state, at the
      clock or just above that version, exactly when nothing above it has been written
      or the clock has passed what has. Its place and every other job stay. */
  ghost predicate Moves(before: Table, after: Table, job: Job, clock: int, state: Row) {
    && after.Keys == before.Keys + {job.id}
    && (forall id :: id in before && id != job.id ==> after[id] == before[id])
    && (job.id in before ==>
          var was, now := before[job.id], after[job.id];
          if was.latest.created <= job.version || was.latest.created < clock
          then now.first == was.first
               && now.latest == state.(created := Above(clock, job.version))
          else now.latest == was.latest)
  }

  lemma TransitionMoves(log: seq<Row>, job: Job, clock: int, row: Row)
    requires row.job == job.id && row.created == NextVersion(clock, job.version)
    ensures Moves(Latest(log), Latest(log + [row]), job, clock, row)
  {
    LatestOrdered(log);
    LatestAppend(log, row);
  }

  /** A state without its version, for the contracts of the three writers. */
  function State(job: Job, status: Status, claimedBy: string, claimedAt: Option<int>, message: string, retryAfter: int): Row {
    Row(0, job.id, job.payload, status, claimedBy, claimedAt, message, retryAfter)
  }

  class JobQueue {
    var log: seq<Row>

    constructor ()
      ensures log == []
    {
      log := [];
    }

    /** A job without a type is one of an SBOM. */
    method EnqueueJob(id: JobId, payload: Payload, created: int, retryAfter: int)
      modifies this
      ensures log == old(log) + [
                Row(created, id, payload.(jobType := if payload.jobType == "" then "sbom" else payload.jobType),
                    Pending, "", None, "", retryAfter / 1000)]
    {
      var jobType := payload.jobType;
      if jobType == "" { jobType := SbomType; }
      log := log + [EnqueueRow(id, payload.(jobType := jobType), created, retryAfter)];
    }

    /** Groups the rows by job. */
    method LatestJobs() returns (t: Table)
      ensures t == Latest(log)
    {
      t := map[];
      for i := 0 to |log|
        invariant t == Latest(log[..i])
      {
        assert log[..i + 1][..i] == log[..i];
        t := Apply(t, log[i]);
      }
      assert log[..|log|] == log;
    }

    /** The matching jobs, oldest first, at most limit of them. */
    method SelectJobs(where: Entry -> bool, limit: nat) returns (jobs: seq<Job>)
      ensures Selected(Latest(log), where, limit, jobs)
    {
      var t := LatestJobs();
      jobs := [];
      var left := t.Keys;
      while left != {}
        invariant left <= t.Keys
        invariant OldestFirst(jobs) && Distinct(jobs)
        invariant forall x :: x in jobs ==> Matches(t, where, x) && x.id !in left
        invariant forall id :: id in t && id !in left && where(t[id]) ==> JobOf(id, t[id]) in jobs
      {
        var id :| id in left;
        if where(t[id]) { jobs := Place(jobs, JobOf(id, t[id])); }
        left := left - {id};
      }
      if |jobs| > limit {
        TakeSelected(t, where, limit, jobs);
        jobs := jobs[..limit];
      }
    }

    method DeferJob(job: Job, clock: int, retryAfter: int, reason: string)
      modifies this
      ensures Moves(Latest(old(log)), Latest(log), job, clock, State(job, Pending, "", None, reason, retryAfter / 1000))
      ensures log == old(log) + [DeferRow(job, clock, retryAfter, reason)]
    {
      TransitionMoves(log, job, clock, DeferRow(job, clock, retryAfter, reason));
      log := log + [DeferRow(job, clock, retryAfter, reason)];
    }

    /** Defers the jobs one after the other. */
    method DeferAll(jobs: seq<Job>, clock: nat -> int, retryAfter: int, reason: string)
      modifies this
      ensures log == old(log) + DeferRows(jobs, clock, retryAfter, reason)
    {
      ghost var rows := DeferRows(jobs, clock, retryAfter, reason);
      assert log == old(log) + rows[..0];
      for i := 0 to |jobs|
        invariant log == old(log) + rows[..i]
      {
        DeferJob(jobs[i], clock(i), retryAfter, reason);
        assert rows[..i + 1] == rows[..i] + [rows[i]];
      }
      assert rows[..|jobs|] == rows;
    }

    /** Puts the jobs a worker abandoned back to pending. */
    method ReleaseOwnClaims(worker: string, clock: nat -> int, now: int) returns (orphaned: seq<Job>)
      modifies this
      ensures PutBack(Latest(old(log)), (e: Entry) => e.latest.status == Processing && e.latest.claimedBy == worker, 10000, orphaned,
                      now / 1000, "requeued: claim abandoned by " + worker, Latest(log))
    {
      var where, reason := e => OwnClaim(e, worker), "requeued: claim abandoned by " + worker;
      orphaned := SelectJobs(where, SweepLimit);
      DeferRowsSupersede(Latest(log), where, SweepLimit, orphaned, clock, now, reason);
      SupersedeAll(log, DeferRows(orphaned, clock, now, reason));
      DeferAll(orphaned, clock, now, reason);
      LatestOrdered(old(log));
      DeferRowsPutBack(Latest(old(log)), where, SweepLimit, orphaned, clock, now, reason, Latest(log));
    }

    /** Puts the jobs that have been processing for over an hour back to pending. */
    method RequeueStaleJobs(sqlNow: int, clock: nat -> int, now: int) returns (stale: seq<Job>)
      modifies this
      ensures PutBack(Latest(old(log)),
                      (e: Entry) => e.latest.status == Processing && e.latest.claimedAt.Some? && e.latest.claimedAt.value + 3600 < sqlNow / 1000,
                      10000, stale, now / 1000, "requeued: processing for more than 1h0m0s", Latest(log))
    {
      var where := e => StaleClaim(e, sqlNow);
      stale := SelectJobs(where, SweepLimit);
      DeferRowsSupersede(Latest(log), where, SweepLimit, stale, clock, now, SweepMessage);
      SupersedeAll(log, DeferRows(stale, clock, now, SweepMessage));
      DeferAll(stale, clock, now, SweepMessage);
      LatestOrdered(old(log));
      DeferRowsPutBack(Latest(old(log)), where, SweepLimit, stale, clock, now, SweepMessage, Latest(log));
    }

    /** Which of the jobs are, by their latest row, processing for this worker. */
    method OwnClaimedJobIDs(ids: set<JobId>, worker: string) returns (owned: set<JobId>)
      ensures owned == set id | && id in ids && id in Latest(log)
                                && Latest(log)[id].latest.status == Processing && Latest(log)[id].latest.claimedBy == worker
    {
      var t := LatestJobs();
      owned := set id | id in ids && id in t && OwnClaim(t[id], worker);
    }

    /** Keeps the claims that the table confirms. */
    method KeepOwned(jobs: array<Job>, worker: string) returns (claimed: seq<Job>)
      ensures claimed == Confirmed(Latest(log), worker, jobs[..])
    {
      var owned := OwnClaimedJobIDs(set i | 0 <= i < jobs.Length :: jobs[i].id, worker);
      claimed := [];
      for i := 0 to jobs.Length
        invariant claimed == Confirmed(Latest(log), worker, jobs[..i])
      {
        assert jobs[..i + 1][..i] == jobs[..i];
        if jobs[i].id in owned { claimed := claimed + [jobs[i]]; }
      }
      assert jobs[..jobs.Length] == jobs[..];
    }

    /** Selects due jobs, overwrites each with this worker's claim, writes the
        claims, and keeps those the table confirms. */
    method ClaimDueJobs(worker: string, limit: nat, sqlNow: int, serverNow: int) returns (claimed: seq<Job>)
      modifies this
      ensures ClaimsDue(Latest(old(log)), worker, limit, sqlNow, serverNow, claimed, Latest(log))
    {
      var found := SelectJobs(e => PendingAndDue(e, sqlNow), limit);
      var jobs := new Job[|found|](i requires 0 <= i < |found| => found[i]);
      assert jobs[..] == found;
      MarkClaimed(jobs, worker, serverNow);
      ghost var claims, before := jobs[..], log;
      InsertClaims(jobs);
      SupersedeAll(before, ClaimRows(claims));
      ClaimsAreDue(Latest(before), worker, limit, sqlNow, found, serverNow, claims, Latest(log));
      claimed := KeepOwned(jobs, worker);
      AllConfirmed(Latest(log), worker, claims);
    }

    /** One worker's poll under the claim lock, with nobody else writing. */
    method ClaimJobs(worker: string, limit: nat, clock: nat -> int, now: int, sqlNow: int, serverNow: int)
      returns (claimed: seq<Job>, ghost released: Table, ghost orphaned: seq<Job>)
      modifies this
      ensures PutBack(Latest(old(log)), (e: Entry) => e.latest.status == Processing && e.latest.claimedBy == worker, 10000, orphaned,
                      now / 1000, "requeued: claim abandoned by " + worker, released)
      ensures ClaimsDue(released, worker, limit, sqlNow, serverNow, claimed, Latest(log))
    {
      orphaned := ReleaseOwnClaims(worker, clock, now);
      released := Latest(log);
      claimed := ClaimDueJobs(worker, limit, sqlNow, serverNow);
    }

    /** Sends the claims as one batch. */
    method InsertClaims(jobs: array<Job>)
      modifies this
      ensures log == old(log) + ClaimRows(jobs[..])
    {
      ghost var rows := ClaimRows(jobs[..]);
      assert log == log + rows[..0];
      for i := 0 to jobs.Length
        invariant log == old(log) + rows[..i]
      {
        assert rows[i] == ClaimRow(jobs[i]);
        log := log + [ClaimRow(jobs[i])];
        assert rows[..i + 1] == rows[..i] + [rows[i]];
      }
      assert rows[..jobs.Length] == rows;
    }

    method CompleteJob(job: Job, clock: int)
      modifies this
      ensures Moves(Latest(old(log)), Latest(log), job, clock, State(job, Done, job.claimedBy, job.claimedAt, "", 0))
      ensures log == old(log) + [DoneRow(job, clock)]
    {
      TransitionMoves(log, job, clock, DoneRow(job, clock));
      log := log + [DoneRow(job, clock)];
    }

    method FailJob(job: Job, clock: int, message: string)
      modifies this
      ensures Moves(Latest(old(log)), Latest(log), job, clock, State(job, Failed, job.claimedBy, job.claimedAt, message, 0))
      ensures log == old(log) + [FailRow(job, clock, message)]
    {
      TransitionMoves(log, job, clock, FailRow(job, clock, message));
      log := log + [FailRow(job, clock, message)];
    }
  }

  lemma TakeSelected(t: Table, where: Entry -> bool, limit: nat, jobs: seq<Job>)
    requires |jobs| > limit && OldestFirst(jobs) && Distinct(jobs)
    requires forall i :: 0 <= i < |jobs| ==> Matches(t, where, jobs[i])
    requires forall id :: id in t && where(t[id]) ==> JobOf(id, t[id]) in jobs
    ensures Selected(t, where, limit, jobs[..limit])
  {
    var taken := jobs[..limit];
    forall id | id in t && where(t[id])
      ensures Lists(taken, id) || forall i :: 0 <= i < limit ==> taken[i].createdAt <= t[id].first
    {
      var k :| 0 <= k < |jobs| && jobs[k] == JobOf(id, t[id]);
      assert k < limit ==> taken[k].id == id;
    }
  }
}
