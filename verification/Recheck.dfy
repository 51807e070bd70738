/** License rechecks on top of the queue (cmd/parsing-worker/license_recheck.go,
    internal/clickhouse/queries_license_recheck.go): replicas that see different
    rule digests enqueue, skip, defer and run license_recheck jobs. */
module Recheck {
  import opened Text
  import opened Queue
  import opened Compliance

  const RecheckType := "license_recheck"
  const RecheckStaleAfter := 3600 * 1000

  // ---------------------------------------------------------------------
  // The newest recheck
  // ---------------------------------------------------------------------

  predicate IsRecheck(t: Table, id: JobId) {
    id in t && t[id].latest.payload.jobType == RecheckType
  }

  /** b was enqueued after a, ties broken by the job id. */
  predicate Later(t: Table, a: JobId, b: JobId)
    requires a in t && b in t
  {
    t[a].first < t[b].first || (t[a].first == t[b].first && a < b)
  }

  ghost predicate IsNewest(t: Table, newest: Option<JobId>) {
    match newest
    case None => forall id :: !IsRecheck(t, id)
    case Some(n) => IsRecheck(t, n) && forall id :: IsRecheck(t, id) && id != n ==> Later(t, id, n)
  }

  lemma NewestUnique(t: Table, a: Option<JobId>, b: Option<JobId>)
    requires IsNewest(t, a) && IsNewest(t, b)
    ensures a == b
  {
  }

  method LatestLicenseRecheck(queue: JobQueue) returns (newest: Option<JobId>, t: Table)
    ensures t == Latest(queue.log) && IsNewest(t, newest)
  {
    t := queue.LatestJobs();
    newest := None;
    var left := t.Keys;
    while left != {}
      invariant left <= t.Keys
      invariant newest.None? ==> forall id :: IsRecheck(t, id) ==> id in left
      invariant newest.Some? ==>
                  && IsRecheck(t, newest.value) && newest.value !in left
                  && forall id :: IsRecheck(t, id) && id != newest.value && id !in left ==> Later(t, id, newest.value)
    {
      var id :| id in left;
      if IsRecheck(t, id) && (newest.None? || Later(t, newest.value, id)) { newest := Some(id); }
      left := left - {id};
    }
  }

  // ---------------------------------------------------------------------
  // Asking for a recheck
  // ---------------------------------------------------------------------

  /** The deterministic job id: a hash of the recheck it follows and the digest. */
  type Naming = (Option<JobId>, string) -> JobId

  predicate NeedsRetry(latest: Row, now: int) {
    || latest.status == Failed
    || (latest.status == Processing && now - latest.created > RecheckStaleAfter)
  }

  /** The newest recheck already covers the digest. */
  predicate Covers(t: Table, newest: Option<JobId>, digest: string, now: int)
    requires newest.Some? ==> newest.value in t
  {
    newest.Some? && t[newest.value].latest.payload.sha256 == digest && !NeedsRetry(t[newest.value].latest, now)
  }

  function ShortDigest(d: string): string {
    if |d| > 12 then d[..12] else d
  }

  function RecheckPayload(digest: string): Payload {
    Payload("license-exceptions@" + ShortDigest(digest), digest, RecheckType, "", "", "", "", "", "", [], "")
  }

  method EnsureLicenseRecheck(queue: JobQueue, name: Naming, digest: string, delay: int, now: int) returns (ghost newest: Option<JobId>)
    modifies queue
    ensures IsNewest(Latest(old(queue.log)), newest)
    ensures var was := Latest(old(queue.log));
            if newest.Some? && was[newest.value].latest.payload.sha256 == digest && was[newest.value].latest.status != Failed
               && (was[newest.value].latest.status == Processing ==> now - was[newest.value].latest.created <= 3600000)
            then queue.log == old(queue.log)
            else queue.log == old(queue.log) + [
                   Row(now, name(newest, digest),
                       Payload("license-exceptions@" + (if |digest| <= 12 then digest else digest[..12]), digest, "license_recheck",
                               "", "", "", "", "", "", [], ""),
                       Pending, "", None, "", (now + delay) / 1000)]
    ensures Covers(Latest(old(queue.log)), newest, digest, now) <==> queue.log == old(queue.log)
    ensures queue.log != old(queue.log) ==>
              queue.log == old(queue.log) + [EnqueueRow(name(newest, digest), RecheckPayload(digest), now, now + delay)]
  {
    var latest, t := LatestLicenseRecheck(queue);
    newest := latest;
    var prev := None;
    if latest.Some? {
      if t[latest.value].latest.payload.sha256 == digest && !NeedsRetry(t[latest.value].latest, now) { return; }
      prev := latest;
    }
    assert |RecheckType| > 0;
    queue.EnqueueJob(name(prev, digest), RecheckPayload(digest), now, now + delay);
  }

  // ---------------------------------------------------------------------
  // Running a recheck
  // ---------------------------------------------------------------------

  datatype Rules = Rules(digest: string, value: Option<Decider>)

  datatype Verdict = Succeed | Postpone(until: int) | GiveUp

  /** Another recheck was enqueued after the job. */
  ghost predicate Superseded(t: Table, job: JobId) {
    exists other :: IsRecheck(t, other) && job in t && Later(t, job, other)
  }

  method RunLicenseRecheckJob(queue: JobQueue, store: ComplianceStore, job: Job, rules: Rules, now: int, retry: int,
                              readFails: bool, fails: nat -> bool, shutdown: bool) returns (verdict: Verdict)
    requires IsRecheck(Latest(queue.log), job.id)
    modifies store
    ensures forall key :: key in store.rows <==> key in old(store.rows)
    ensures verdict.Succeed? && rules.digest == job.payload.sha256 ==>
              forall key :: key in store.rows ==> store.rows[key] == Rechecked(old(store.rows)[key], rules.value)
    ensures rules.digest != job.payload.sha256 ==> store.rows == old(store.rows)
    ensures rules.digest != job.payload.sha256 && !readFails ==>
              (verdict.Succeed? <==> Superseded(Latest(queue.log), job.id)) && !verdict.GiveUp?
    ensures verdict.Postpone? ==> verdict.until == if rules.digest == job.payload.sha256 then now else now + retry
  {
    if rules.digest != job.payload.sha256 {
      if readFails { return GiveUp; }
      var latest, t := LatestLicenseRecheck(queue);
      if latest.Some? && latest.value != job.id {
        assert Later(t, job.id, latest.value);
        return Succeed;
      }
      return Postpone(now + retry);
    }
    var done := store.ProcessRecheck(rules.value, fails);
    if !done { return if shutdown then Postpone(now) else GiveUp; }
    verdict := Succeed;
  }

  // ---------------------------------------------------------------------
  // Many replicas
  // ---------------------------------------------------------------------

  /** A stored row and when it was checked, in whole seconds of the clock of
      whoever checked it. */
  datatype Check = Check(row: StoredRow, at: int)

  type Checks = map<RowKey, Check>

  /** A row of one key replaces the row before unless that was checked later. */
  function Put(rows: Checks, key: RowKey, check: Check): Checks {
    if key in rows && rows[key].at > check.at then rows else rows[key := check]
  }

  /** What a runner concluded about the recheck it runs. */
  datatype Finding = Finding(job: JobId, version: int, digest: string, processed: bool)

  /** The recheck a replica runs: the rules it began with, its clock then, the
      rows the cursor has yet to yield, and the changed rows not yet written. */
  datatype Running = Running(job: JobId, version: int, digest: string, now: int, unread: set<RowKey>, changed: Rows)

  function FindingOf(run: Running): Finding {
    Finding(run.job, run.version, run.digest, true)
  }

  /** The latest recheck a replica read when it decided to enqueue, and for which rules. */
  datatype Intent = Intent(newest: Option<JobId>, digest: string)

  datatype Replica = Replica(digest: string, intent: Option<Intent>, running: Option<Running>, finding: Option<Finding>)

  datatype State = State(log: seq<Row>, replicas: map<nat, Replica>, rows: Checks, completed: seq<Finding>)

  function T(s: State): Table { Latest(s.log) }

  datatype Step =
    | Learn(r: nat, digest: string)
    | Crash(r: nat)
    | Read(r: nat, newest: Option<JobId>, now: int)
    | Enqueue(r: nat, created: int, retryAfter: int, lands: bool)
    | Supersede(r: nat, job: JobId, version: int, other: JobId)
    | Begin(r: nat, job: JobId, version: int, now: int)
    | ReadRow(r: nat, key: RowKey)
    | Write(r: nat, keys: set<RowKey>)
    | Conclude(r: nat)
    | Abandon(r: nat)
    | Finish(r: nat, clock: int, lands: bool)
    | Move(row: Row)
    | Ingest(r: nat, key: RowKey, check: Check)

  /** What the rules of each digest decide. */
  type RulesOf = string -> Option<Decider>

  /** No recheck rule of a digest would change the row. */
  ghost predicate Settled(row: StoredRow, e: Option<Decider>) {
    Rechecked(row, e) == row
  }

  /** created_at orders enqueues: no recheck is enqueued before one the table has. */
  ghost predicate InOrder(t: Table, created: int) {
    forall id :: IsRecheck(t, id) ==> t[id].first <= created
  }

  ghost predicate Enabled(s: State, name: Naming, rules: RulesOf, step: Step) {
    match step
    case Learn(r, digest) => true
    case Crash(r) => r in s.replicas
    case Read(r, newest, now) => r in s.replicas && IsNewest(T(s), newest)
    case Enqueue(r, created, retryAfter, lands) =>
      r in s.replicas && s.replicas[r].intent.Some? && InOrder(T(s), created)
      && (var i := s.replicas[r].intent.value;
          name(i.newest, i.digest) in T(s) ==> T(s)[name(i.newest, i.digest)].latest.payload == RecheckPayload(i.digest))
    case Supersede(r, job, version, newest) =>
      r in s.replicas && Claimable(T(s), job, version) && s.replicas[r].digest != T(s)[job].latest.payload.sha256
      && IsNewest(T(s), Some(newest)) && newest != job
    case Begin(r, job, version, now) =>
      r in s.replicas && s.replicas[r].running.None? && Claimable(T(s), job, version)
      && s.replicas[r].digest == T(s)[job].latest.payload.sha256
    case ReadRow(r, key) =>
      r in s.replicas && s.replicas[r].running.Some? && key in s.replicas[r].running.value.unread && key in s.rows
    case Write(r, keys) =>
      r in s.replicas && s.replicas[r].running.Some? && s.replicas[r].running.value.unread == {}
      && keys <= s.replicas[r].running.value.changed.Keys
    case Conclude(r) =>
      r in s.replicas && s.replicas[r].running.Some?
      && s.replicas[r].running.value.unread == {} && s.replicas[r].running.value.changed == map[]
    case Abandon(r) => r in s.replicas
    case Finish(r, clock, lands) => r in s.replicas && s.replicas[r].finding.Some?
    case Move(row) =>
      if row.job in T(s) then
        row.payload == T(s)[row.job].latest.payload && T(s)[row.job].first < row.created
        && (IsRecheck(T(s), row.job) ==> row.status != Done)
      else row.payload.jobType != RecheckType
    case Ingest(r, key, check) => r in s.replicas && Settled(check.row, rules(s.replicas[r].digest))
  }

  /** The done row, written against the version the worker claimed. */
  function RecheckDone(t: Table, f: Finding, clock: int): Row
    requires f.job in t
  {
    DoneRow(JobOf(f.job, t[f.job]).(version := f.version), clock)
  }

  /** A version of the job that somebody can have claimed. */
  predicate Claimable(t: Table, job: JobId, version: int) {
    IsRecheck(t, job) && t[job].first <= version <= t[job].latest.created
  }

  /** The cursor yields a row: its outcome changes, or it is done with. */
  function ReadNext(run: Running, key: RowKey, row: StoredRow, e: Option<Decider>): Running {
    run.(unread := run.unread - {key}, changed := if Rechecked(row, e) == row then run.changed else run.changed[key := Rechecked(row, e)])
  }

  function Written(rows: Checks, run: Running, keys: set<RowKey>): Checks
    requires keys <= run.changed.Keys
  {
    map key | key in rows.Keys + keys ::
      if key in keys then Put(rows, key, Check(run.changed[key], run.now))[key] else rows[key]
  }

  ghost function After(s: State, name: Naming, rules: RulesOf, step: Step): State
    requires Enabled(s, name, rules, step)
  {
    match step
    case Learn(r, digest) =>
      s.(replicas := s.replicas[r := if r in s.replicas then s.replicas[r].(digest := digest) else Replica(digest, None, None, None)])
    case Crash(r) => s.(replicas := s.replicas - {r})
    case Read(r, newest, now) =>
      var digest := s.replicas[r].digest;
      var intent := if Covers(T(s), newest, digest, now) then None else Some(Intent(newest, digest));
      s.(replicas := s.replicas[r := s.replicas[r].(intent := intent)])
    case Enqueue(r, created, retryAfter, lands) =>
      var i := s.replicas[r].intent.value;
      var done := s.(replicas := s.replicas[r := s.replicas[r].(intent := None)]);
      if lands then done.(log := s.log + [EnqueueRow(name(i.newest, i.digest), RecheckPayload(i.digest), created, retryAfter)])
      else done
    case Supersede(r, job, version, newest) =>
      s.(replicas := s.replicas[r := s.replicas[r].(finding := Some(Finding(job, version, s.replicas[r].digest, false)))])
    case Begin(r, job, version, now) =>
      var run := Running(job, version, s.replicas[r].digest, now, s.rows.Keys, map[]);
      s.(replicas := s.replicas[r := s.replicas[r].(running := Some(run))])
    case ReadRow(r, key) =>
      var run := s.replicas[r].running.value;
      s.(replicas := s.replicas[r := s.replicas[r].(running := Some(ReadNext(run, key, s.rows[key].row, rules(run.digest))))])
    case Write(r, keys) =>
      var run := s.replicas[r].running.value;
      s.(replicas := s.replicas[r := s.replicas[r].(running := Some(run.(changed := run.changed - keys)))],
         rows := Written(s.rows, run, keys))
    case Conclude(r) =>
      var run := s.replicas[r].running.value;
      s.(replicas := s.replicas[r := s.replicas[r].(running := None, finding := Some(FindingOf(run)))])
    case Abandon(r) => s.(replicas := s.replicas[r := s.replicas[r].(running := None)])
    case Finish(r, clock, lands) =>
      var f := s.replicas[r].finding.value;
      var done := s.(replicas := s.replicas[r := s.replicas[r].(finding := None)], completed := s.completed + [f]);
      if lands && f.job in T(s) then done.(log := s.log + [RecheckDone(T(s), f, clock)]) else done
    case Move(row) => s.(log := s.log + [row])
    case Ingest(r, key, check) => s.(rows := Put(s.rows, key, check))
  }

  ghost predicate Run(s: State, name: Naming, rules: RulesOf, steps: seq<Step>)
    decreases |steps|
  {
    steps == [] || (Enabled(s, name, rules, steps[0]) && Run(After(s, name, rules, steps[0]), name, rules, steps[1..]))
  }

  ghost function End(s: State, name: Naming, rules: RulesOf, steps: seq<Step>): State
    requires Run(s, name, rules, steps)
    decreases |steps|
  {
    if steps == [] then s else End(After(s, name, rules, steps[0]), name, rules, steps[1..])
  }

  lemma {:induction false} RunAppend(s: State, name: Naming, rules: RulesOf, steps: seq<Step>, more: seq<Step>)
    ensures Run(s, name, rules, steps + more) <==> Run(s, name, rules, steps) && Run(End(s, name, rules, steps), name, rules, more)
    ensures Run(s, name, rules, steps + more) ==>
              End(s, name, rules, steps + more) == End(End(s, name, rules, steps), name, rules, more)
    decreases |steps|
  {
    if steps == [] {
      assert steps + more == more;
    } else {
      assert (steps + more)[1..] == steps[1..] + more;
      if Enabled(s, name, rules, steps[0]) { RunAppend(After(s, name, rules, steps[0]), name, rules, steps[1..], more); }
    }
  }

  /** The state after the first k steps. */
  ghost function At(s: State, name: Naming, rules: RulesOf, steps: seq<Step>, k: nat): State
    requires Run(s, name, rules, steps) && k <= |steps|
  {
    RunAppend(s, name, rules, steps[..k], steps[k..]);
    assert steps[..k] + steps[k..] == steps;
    End(s, name, rules, steps[..k])
  }

  lemma AtEnd(s: State, name: Naming, rules: RulesOf, steps: seq<Step>)
    requires Run(s, name, rules, steps)
    ensures At(s, name, rules, steps, |steps|) == End(s, name, rules, steps)
  {
    assert steps[..|steps|] == steps;
  }

  /** One more step: what came before is as it was. */
  lemma AtNext(s: State, name: Naming, rules: RulesOf, steps: seq<Step>, n: nat)
    requires Run(s, name, rules, steps) && |steps| == n + 1
    ensures Run(s, name, rules, steps[..n]) && Enabled(End(s, name, rules, steps[..n]), name, rules, steps[n])
    ensures End(s, name, rules, steps) == After(End(s, name, rules, steps[..n]), name, rules, steps[n])
    ensures forall k :: 0 <= k <= n ==> At(s, name, rules, steps, k) == At(s, name, rules, steps[..n], k)
  {
    RunAppend(s, name, rules, steps[..n], steps[n..]);
    assert steps[..n] + steps[n..] == steps;
    assert steps[n..][0] == steps[n] && steps[n..][1..] == [];
    assert Run(End(s, name, rules, steps[..n]), name, rules, steps[n..]);
    forall k | 0 <= k <= n ensures At(s, name, rules, steps, k) == At(s, name, rules, steps[..n], k) {
      assert steps[..n][..k] == steps[..k];
    }
  }

  // ---------------------------------------------------------------------
  // Who completes the newest recheck
  // ---------------------------------------------------------------------

  predicate Describes(t: Table, f: Finding) {
    && IsRecheck(t, f.job) && t[f.job].first <= f.version
    && (f.processed ==> f.digest == t[f.job].latest.payload.sha256)
  }

  /** A job found superseded stays superseded. */
  ghost predicate Justified(t: Table, f: Finding) {
    Describes(t, f) && (!f.processed ==> Superseded(t, f.job))
  }

  /** A running recheck is of the digest of the rules it runs with, and what it
      is to write is settled under them. */
  ghost predicate RunningOk(t: Table, rules: RulesOf, run: Running) {
    && Describes(t, FindingOf(run))
    && forall key :: key in run.changed ==> Settled(run.changed[key], rules(run.digest))
  }

  ghost predicate Inv(s: State, rules: RulesOf) {
    && (forall r :: r in s.replicas && s.replicas[r].finding.Some? ==> Justified(T(s), s.replicas[r].finding.value))
    && (forall f :: f in s.completed ==> Justified(T(s), f))
    && (forall r :: r in s.replicas && s.replicas[r].running.Some? ==> RunningOk(T(s), rules, s.replicas[r].running.value))
  }

  /** The row leaves what its job is; a recheck's comes no earlier than any recheck. */
  ghost predicate Orderly(t: Table, row: Row) {
    if row.job in t then row.payload == t[row.job].latest.payload && t[row.job].first <= row.created
    else row.payload.jobType == RecheckType ==> InOrder(t, row.created)
  }

  lemma OrderlyKeepsSuperseded(t: Table, row: Row, job: JobId)
    requires Ordered(t) && Orderly(t, row) && Superseded(t, job)
    ensures Superseded(Apply(t, row), job)
  {
    var other :| IsRecheck(t, other) && Later(t, job, other);
    assert IsRecheck(Apply(t, row), other) && Later(Apply(t, row), job, other);
  }

  lemma OrderlyKeeps(t: Table, row: Row, f: Finding)
    requires Ordered(t) && Orderly(t, row) && Describes(t, f)
    ensures Describes(Apply(t, row), f)
    ensures Justified(t, f) ==> Justified(Apply(t, row), f)
  {
    if !f.processed && Superseded(t, f.job) { OrderlyKeepsSuperseded(t, row, f.job); }
  }

  /** A step leaves the table alone or sends one orderly row. */
  lemma StepIsOrderly(s: State, name: Naming, rules: RulesOf, step: Step) returns (row: Row)
    requires Inv(s, rules) && Enabled(s, name, rules, step)
    ensures After(s, name, rules, step).log == s.log
            || (After(s, name, rules, step).log == s.log + [row] && Orderly(T(s), row))
  {
    LatestOrdered(s.log);
    row := EnqueueRow(0, RecheckPayload(""), 0, 0);
    match step
    case Enqueue(r, created, retryAfter, lands) =>
      var i := s.replicas[r].intent.value;
      row := EnqueueRow(name(i.newest, i.digest), RecheckPayload(i.digest), created, retryAfter);
    case Finish(r, clock, lands) =>
      assert Justified(T(s), s.replicas[r].finding.value);
      row := RecheckDone(T(s), s.replicas[r].finding.value, clock);
    case Move(m) => row := m;
    case _ =>
  }

  lemma DescribedStays(s: State, name: Naming, rules: RulesOf, step: Step, f: Finding)
    requires Inv(s, rules) && Enabled(s, name, rules, step) && Describes(T(s), f)
    ensures Describes(T(After(s, name, rules, step)), f)
    ensures Justified(T(s), f) ==> Justified(T(After(s, name, rules, step)), f)
  {
    var row := StepIsOrderly(s, name, rules, step);
    LatestOrdered(s.log);
    LatestAppend(s.log, row);
    if After(s, name, rules, step).log != s.log { OrderlyKeeps(T(s), row, f); }
  }

  /** A finding of a replica, or one completed. */
  ghost predicate Found(s: State, f: Finding) {
    (exists r :: r in s.replicas && s.replicas[r].finding == Some(f)) || f in s.completed
  }

  /** What a step newly concludes. */
  ghost predicate NewlyFound(s: State, step: Step, f: Finding) {
    || (step.Supersede? && step.r in s.replicas && f == Finding(step.job, step.version, s.replicas[step.r].digest, false))
    || (step.Conclude? && step.r in s.replicas && s.replicas[step.r].running.Some?
        && f == FindingOf(s.replicas[step.r].running.value))
  }

  /** Every finding after a step was there before, or is the step's own. */
  lemma FindingsAfter(s: State, name: Naming, rules: RulesOf, step: Step, f: Finding)
    requires Enabled(s, name, rules, step) && Found(After(s, name, rules, step), f)
    ensures Found(s, f) || NewlyFound(s, step, f)
  {
  }

  lemma NewlyFoundJustified(s: State, name: Naming, rules: RulesOf, step: Step, f: Finding)
    requires Inv(s, rules) && Enabled(s, name, rules, step) && NewlyFound(s, step, f)
    ensures Justified(T(s), f)
  {
    if step.Supersede? {
      assert IsRecheck(T(s), step.other) && Later(T(s), step.job, step.other);
    } else {
      assert RunningOk(T(s), rules, s.replicas[step.r].running.value);
    }
  }

  /** A step that neither begins nor reads leaves a recheck, or takes what it has written. */
  lemma SameOrLess(s: State, name: Naming, rules: RulesOf, step: Step, r: nat)
    requires Enabled(s, name, rules, step) && !(step.ReadRow? && step.r == r) && !(step.Begin? && step.r == r)
    requires r in After(s, name, rules, step).replicas && After(s, name, rules, step).replicas[r].running.Some?
    ensures r in s.replicas && s.replicas[r].running.Some?
    ensures var run, next := s.replicas[r].running.value, After(s, name, rules, step).replicas[r].running.value;
            && next.job == run.job && next.version == run.version && next.digest == run.digest
            && forall key :: key in next.changed ==> key in run.changed && next.changed[key] == run.changed[key]
  {
  }

  /** What a replica runs after a step. */
  lemma RunningAfter(s: State, name: Naming, rules: RulesOf, step: Step, r: nat)
    requires Inv(s, rules) && Enabled(s, name, rules, step)
    requires r in After(s, name, rules, step).replicas && After(s, name, rules, step).replicas[r].running.Some?
    ensures RunningOk(T(s), rules, After(s, name, rules, step).replicas[r].running.value)
  {
    if step.ReadRow? && step.r == r {
      var run := s.replicas[r].running.value;
      assert RunningOk(T(s), rules, run);
      RecheckedSettles(s.rows[step.key].row, rules(run.digest));
    } else if step.Begin? && step.r == r {
    } else {
      SameOrLess(s, name, rules, step, r);
      assert RunningOk(T(s), rules, s.replicas[r].running.value);
    }
  }

  lemma StepKeeps(s: State, name: Naming, rules: RulesOf, step: Step)
    requires Inv(s, rules) && Enabled(s, name, rules, step)
    ensures Inv(After(s, name, rules, step), rules)
  {
    var after := After(s, name, rules, step);
    forall f | Found(after, f) ensures Justified(T(after), f) {
      FindingsAfter(s, name, rules, step, f);
      if Found(s, f) { assert Justified(T(s), f); } else { NewlyFoundJustified(s, name, rules, step, f); }
      DescribedStays(s, name, rules, step, f);
    }
    forall r | r in after.replicas && after.replicas[r].running.Some? ensures RunningOk(T(after), rules, after.replicas[r].running.value) {
      RunningAfter(s, name, rules, step, r);
      var run := after.replicas[r].running.value;
      DescribedStays(s, name, rules, step, FindingOf(run));
    }
  }

  lemma {:induction false} RunKeeps(s: State, name: Naming, rules: RulesOf, steps: seq<Step>)
    requires Inv(s, rules) && Run(s, name, rules, steps)
    ensures Inv(End(s, name, rules, steps), rules)
    decreases |steps|
  {
    if steps != [] {
      StepKeeps(s, name, rules, steps[0]);
      RunKeeps(After(s, name, rules, steps[0]), name, rules, steps[1..]);
    }
  }

  // ---------------------------------------------------------------------
  // What a completed recheck has done
  // ---------------------------------------------------------------------

  /** The stored row is what the rules make of it, or was checked after now. */
  ghost predicate Reached(rows: Checks, key: RowKey, e: Option<Decider>, now: int) {
    key in rows && (Settled(rows[key].row, e) || rows[key].at > now)
  }

  /** So it was at some point since step k. */
  ghost predicate ReachedSince(s: State, name: Naming, rules: RulesOf, steps: seq<Step>, k: nat, key: RowKey, e: Option<Decider>, now: int)
    requires Run(s, name, rules, steps)
  {
    exists m :: k <= m <= |steps| && Reached(At(s, name, rules, steps, m).rows, key, e, now)
  }

  /** Step k began the recheck of the job with rules of the digest. */
  ghost predicate Began(s: State, name: Naming, rules: RulesOf, steps: seq<Step>, k: nat, job: JobId, digest: string, now: int)
    requires Run(s, name, rules, steps)
  {
    && k < |steps| && steps[k].Begin? && steps[k].job == job && steps[k].now == now
    && steps[k].r in At(s, name, rules, steps, k).replicas && At(s, name, rules, steps, k).replicas[steps[k].r].digest == digest
  }

  /** Of the rows stored when it began, those it is done with have been reached. */
  ghost predicate RunningTraced(s: State, name: Naming, rules: RulesOf, steps: seq<Step>, run: Running)
    requires Run(s, name, rules, steps)
  {
    exists k :: Began(s, name, rules, steps, k, run.job, run.digest, run.now)
      && forall key :: key in At(s, name, rules, steps, k).rows ==>
           key in run.unread || key in run.changed || ReachedSince(s, name, rules, steps, k, key, rules(run.digest), run.now)
  }

  /** Every row stored when it began has been reached since. */
  ghost predicate FindingTraced(s: State, name: Naming, rules: RulesOf, steps: seq<Step>, f: Finding)
    requires Run(s, name, rules, steps)
  {
    exists k, now :: Began(s, name, rules, steps, k, f.job, f.digest, now)
      && forall key :: key in At(s, name, rules, steps, k).rows ==>
           ReachedSince(s, name, rules, steps, k, key, rules(f.digest), now)
  }

  lemma ReachedSinceMore(s: State, name: Naming, rules: RulesOf, steps: seq<Step>, n: nat, k: nat, key: RowKey, e: Option<Decider>, now: int)
    requires Run(s, name, rules, steps) && |steps| == n + 1 && Run(s, name, rules, steps[..n])
    requires ReachedSince(s, name, rules, steps[..n], k, key, e, now)
    ensures ReachedSince(s, name, rules, steps, k, key, e, now)
  {
    AtNext(s, name, rules, steps, n);
    var m :| k <= m <= n && Reached(At(s, name, rules, steps[..n], m).rows, key, e, now);
    assert Reached(At(s, name, rules, steps, m).rows, key, e, now);
  }

  lemma BeganMore(s: State, name: Naming, rules: RulesOf, steps: seq<Step>, n: nat, k: nat, job: JobId, digest: string, now: int)
    requires Run(s, name, rules, steps) && |steps| == n + 1 && Run(s, name, rules, steps[..n])
    requires Began(s, name, rules, steps[..n], k, job, digest, now)
    ensures Began(s, name, rules, steps, k, job, digest, now)
    ensures At(s, name, rules, steps, k) == At(s, name, rules, steps[..n], k)
  {
    AtNext(s, name, rules, steps, n);
  }

  lemma FindingTracedMore(s: State, name: Naming, rules: RulesOf, steps: seq<Step>, n: nat, f: Finding)
    requires Run(s, name, rules, steps) && |steps| == n + 1 && Run(s, name, rules, steps[..n])
    requires FindingTraced(s, name, rules, steps[..n], f)
    ensures FindingTraced(s, name, rules, steps, f)
  {
    var k, now :| Began(s, name, rules, steps[..n], k, f.job, f.digest, now)
                  && forall key :: key in At(s, name, rules, steps[..n], k).rows ==>
                       ReachedSince(s, name, rules, steps[..n], k, key, rules(f.digest), now);
    BeganMore(s, name, rules, steps, n, k, f.job, f.digest, now);
    forall key | key in At(s, name, rules, steps, k).rows ensures ReachedSince(s, name, rules, steps, k, key, rules(f.digest), now) {
      ReachedSinceMore(s, name, rules, steps, n, k, key, rules(f.digest), now);
    }
  }

  /** Where a row the running recheck had to do stands after the next step: a
      step of the recheck itself reads or writes it, any other leaves it. */
  lemma RunningRow(s: State, name: Naming, rules: RulesOf, step: Step, r: nat, key: RowKey)
    requires Inv(s, rules) && Enabled(s, name, rules, step) && r in s.replicas && s.replicas[r].running.Some?
    requires r in After(s, name, rules, step).replicas && After(s, name, rules, step).replicas[r].running.Some?
    requires key in s.replicas[r].running.value.unread || key in s.replicas[r].running.value.changed
    ensures var run, next := s.replicas[r].running.value, After(s, name, rules, step).replicas[r].running.value;
            && next.job == run.job && next.version == run.version && next.digest == run.digest && next.now == run.now
            && (|| key in next.unread || key in next.changed
                || Reached(s.rows, key, rules(run.digest), run.now)
                || Reached(After(s, name, rules, step).rows, key, rules(run.digest), run.now))
  {
    assert RunningOk(T(s), rules, s.replicas[r].running.value);
    if step.ReadRow? && step.r == r {
      ReadRowReaches(s, name, rules, step, key);
    } else if step.Write? && step.r == r {
      WriteReaches(s, name, rules, step, key);
    } else {
      assert After(s, name, rules, step).replicas[r].running == s.replicas[r].running;
    }
  }

  lemma ReadRowReaches(s: State, name: Naming, rules: RulesOf, step: Step, key: RowKey)
    requires Enabled(s, name, rules, step) && step.ReadRow?
    ensures var run, next := s.replicas[step.r].running.value, After(s, name, rules, step).replicas[step.r].running.value;
            && next.job == run.job && next.version == run.version && next.digest == run.digest && next.now == run.now
            && (key in run.unread || key in run.changed ==>
                  key in next.unread || key in next.changed || Reached(s.rows, key, rules(run.digest), run.now))
  {
  }

  lemma WriteReaches(s: State, name: Naming, rules: RulesOf, step: Step, key: RowKey)
    requires Enabled(s, name, rules, step) && step.Write?
    requires RunningOk(T(s), rules, s.replicas[step.r].running.value)
    ensures var run, next := s.replicas[step.r].running.value, After(s, name, rules, step).replicas[step.r].running.value;
            && next.job == run.job && next.version == run.version && next.digest == run.digest && next.now == run.now
            && (key in run.unread || key in run.changed ==>
                  key in next.changed || Reached(After(s, name, rules, step).rows, key, rules(run.digest), run.now))
  {
    var run := s.replicas[step.r].running.value;
    assert After(s, name, rules, step).rows == Written(s.rows, run, step.keys);
    if key in step.keys { assert Settled(run.changed[key], rules(run.digest)); }
  }

  lemma RunningTracedMore(s: State, name: Naming, rules: RulesOf, steps: seq<Step>, n: nat, r: nat)
    requires Run(s, name, rules, steps) && |steps| == n + 1 && Run(s, name, rules, steps[..n])
    requires Inv(End(s, name, rules, steps[..n]), rules)
    requires r in End(s, name, rules, steps[..n]).replicas && End(s, name, rules, steps[..n]).replicas[r].running.Some?
    requires r in End(s, name, rules, steps).replicas && End(s, name, rules, steps).replicas[r].running.Some?
    requires RunningTraced(s, name, rules, steps[..n], End(s, name, rules, steps[..n]).replicas[r].running.value)
    ensures RunningTraced(s, name, rules, steps, End(s, name, rules, steps).replicas[r].running.value)
  {
    var u, v := End(s, name, rules, steps[..n]), End(s, name, rules, steps);
    AtNext(s, name, rules, steps, n);
    AtEnd(s, name, rules, steps);
    AtEnd(s, name, rules, steps[..n]);
    var run, next := u.replicas[r].running.value, v.replicas[r].running.value;
    var k :| Began(s, name, rules, steps[..n], k, run.job, run.digest, run.now)
             && forall key :: key in At(s, name, rules, steps[..n], k).rows ==>
                  key in run.unread || key in run.changed
                  || ReachedSince(s, name, rules, steps[..n], k, key, rules(run.digest), run.now);
    BeganMore(s, name, rules, steps, n, k, run.job, run.digest, run.now);
    RunningSame(u, name, rules, steps[n], r);
    forall key | key in At(s, name, rules, steps, k).rows
      ensures key in next.unread || key in next.changed
              || ReachedSince(s, name, rules, steps, k, key, rules(run.digest), run.now)
    {
      if key in run.unread || key in run.changed {
        RunningRow(u, name, rules, steps[n], r, key);
        assert At(s, name, rules, steps, n) == u && At(s, name, rules, steps, n + 1) == v;
      } else {
        ReachedSinceMore(s, name, rules, steps, n, k, key, rules(run.digest), run.now);
      }
    }
  }

  lemma RunningSame(s: State, name: Naming, rules: RulesOf, step: Step, r: nat)
    requires Enabled(s, name, rules, step) && r in s.replicas && s.replicas[r].running.Some?
    requires r in After(s, name, rules, step).replicas && After(s, name, rules, step).replicas[r].running.Some?
    ensures var run, next := s.replicas[r].running.value, After(s, name, rules, step).replicas[r].running.value;
            next.job == run.job && next.version == run.version && next.digest == run.digest && next.now == run.now
  {
  }

  /** A recheck that starts with this step. */
  lemma RunningStarts(s: State, name: Naming, rules: RulesOf, steps: seq<Step>, n: nat, r: nat)
    requires Run(s, name, rules, steps) && |steps| == n + 1 && Run(s, name, rules, steps[..n])
    requires r in End(s, name, rules, steps).replicas && End(s, name, rules, steps).replicas[r].running.Some?
    requires r in End(s, name, rules, steps[..n]).replicas ==> End(s, name, rules, steps[..n]).replicas[r].running.None?
    ensures RunningTraced(s, name, rules, steps, End(s, name, rules, steps).replicas[r].running.value)
  {
    AtNext(s, name, rules, steps, n);
    AtEnd(s, name, rules, steps[..n]);
    var run := End(s, name, rules, steps).replicas[r].running.value;
    assert steps[n].Begin? && steps[n].r == r;
    assert Began(s, name, rules, steps, n, run.job, run.digest, run.now);
  }

  lemma RunningEnds(s: State, name: Naming, rules: RulesOf, steps: seq<Step>, run: Running)
    requires Run(s, name, rules, steps) && RunningTraced(s, name, rules, steps, run) && run.unread == {} && run.changed == map[]
    ensures FindingTraced(s, name, rules, steps, FindingOf(run))
  {
  }

  ghost predicate AllTraced(s: State, name: Naming, rules: RulesOf, steps: seq<Step>)
    requires Run(s, name, rules, steps)
  {
    var e := End(s, name, rules, steps);
    && (forall f :: Found(e, f) && f.processed ==> FindingTraced(s, name, rules, steps, f))
    && (forall r :: r in e.replicas && e.replicas[r].running.Some? ==> RunningTraced(s, name, rules, steps, e.replicas[r].running.value))
  }

  lemma AllTracedNext(s: State, name: Naming, rules: RulesOf, steps: seq<Step>, n: nat)
    requires Run(s, name, rules, steps) && |steps| == n + 1 && Run(s, name, rules, steps[..n])
    requires Inv(End(s, name, rules, steps[..n]), rules) && AllTraced(s, name, rules, steps[..n])
    ensures AllTraced(s, name, rules, steps)
  {
    var u, v := End(s, name, rules, steps[..n]), End(s, name, rules, steps);
    AtNext(s, name, rules, steps, n);
    forall f | Found(v, f) && f.processed ensures FindingTraced(s, name, rules, steps, f) {
      FindingsAfter(u, name, rules, steps[n], f);
      if !Found(u, f) {
        RunningEnds(s, name, rules, steps[..n], u.replicas[steps[n].r].running.value);
      }
      FindingTracedMore(s, name, rules, steps, n, f);
    }
    forall r | r in v.replicas && v.replicas[r].running.Some? ensures RunningTraced(s, name, rules, steps, v.replicas[r].running.value) {
      if r in u.replicas && u.replicas[r].running.Some? {
        RunningTracedMore(s, name, rules, steps, n, r);
      } else {
        RunningStarts(s, name, rules, steps, n, r);
      }
    }
  }

  lemma {:induction false} RunsAreTraced(s: State, name: Naming, rules: RulesOf, steps: seq<Step>)
    requires s.replicas == map[] && s.completed == [] && Run(s, name, rules, steps)
    ensures AllTraced(s, name, rules, steps) && Inv(End(s, name, rules, steps), rules)
    decreases |steps|
  {
    RunKeeps(s, name, rules, steps);
    if steps != [] {
      var n := |steps| - 1;
      AtNext(s, name, rules, steps, n);
      RunsAreTraced(s, name, rules, steps[..n]);
      AllTracedNext(s, name, rules, steps, n);
    }
  }

  /** A completed recheck that is still the newest was run against the very rules
      it was queued for, and each row that was stored when it began has since been
      stored as those rules decide, or checked later than it began. */
  lemma NewestCompletedWasProcessed(log: seq<Row>, rows: Checks, name: Naming, rules: RulesOf, steps: seq<Step>, i: nat)
    requires Run(State(log, map[], rows, []), name, rules, steps)
    requires var e := End(State(log, map[], rows, []), name, rules, steps);
             i < |e.completed| && IsNewest(T(e), Some(e.completed[i].job))
    ensures var s := State(log, map[], rows, []);
            var e := End(s, name, rules, steps);
            var f := e.completed[i];
            && f.processed && f.digest == T(e)[f.job].latest.payload.sha256
            && exists k, now :: Began(s, name, rules, steps, k, f.job, f.digest, now)
                 && forall key :: key in At(s, name, rules, steps, k).rows ==>
                      ReachedSince(s, name, rules, steps, k, key, rules(f.digest), now)
  {
    var s := State(log, map[], rows, []);
    RunsAreTraced(s, name, rules, steps);
    var e := End(s, name, rules, steps);
    assert e.completed[i] in e.completed;
    assert Justified(T(e), e.completed[i]) && Found(e, e.completed[i]);
    assert FindingTraced(s, name, rules, steps, e.completed[i]);
  }

  // ---------------------------------------------------------------------
  // One set of rules
  // ---------------------------------------------------------------------

  lemma RecheckedSettles(row: StoredRow, e: Option<Decider>)
    ensures Settled(Rechecked(row, e), e)
  {
    ReevaluateIdempotent(row.result, e, row.documentName);
  }

  /** The row a fresh check stores is settled under the rules it was checked with. */
  lemma FreshIsSettled(lic: string, tracked: seq<string>, category: Evaluation.Category, e: Option<Decider>, project: string)
    ensures Settled(StoredRow(Fresh(lic, tracked, category, e, Some(project)), project), e)
  {
    ReevaluateEqualsFresh(lic, tracked, category, e, e, project);
  }

  ghost predicate AllSettled(rows: Checks, e: Option<Decider>) {
    forall key :: key in rows ==> Settled(rows[key].row, e)
  }

  /** Every replica has these rules, and so has every recheck that runs. */
  ghost predicate OneDigest(s: State, digest: string) {
    forall r :: r in s.replicas ==> HasDigest(s.replicas[r], digest)
  }

  predicate HasDigest(p: Replica, digest: string) {
    p.digest == digest && (p.running.Some? ==> p.running.value.digest == digest)
  }

  lemma ReplicaKeepsDigest(s: State, name: Naming, rules: RulesOf, step: Step, r: nat, digest: string)
    requires Enabled(s, name, rules, step) && (step.Learn? ==> step.digest == digest)
    requires r in After(s, name, rules, step).replicas && (r in s.replicas ==> HasDigest(s.replicas[r], digest))
    ensures HasDigest(After(s, name, rules, step).replicas[r], digest)
  {
  }

  lemma StepKeepsOneDigest(s: State, name: Naming, rules: RulesOf, step: Step, digest: string)
    requires Enabled(s, name, rules, step) && OneDigest(s, digest) && (step.Learn? ==> step.digest == digest)
    ensures OneDigest(After(s, name, rules, step), digest)
  {
    forall r | r in After(s, name, rules, step).replicas ensures HasDigest(After(s, name, rules, step).replicas[r], digest) {
      ReplicaKeepsDigest(s, name, rules, step, r, digest);
    }
  }

  /** Under one set of rules, a row that a step changes is settled afterwards. */
  lemma ChangedIsSettled(s: State, name: Naming, rules: RulesOf, step: Step, digest: string, key: RowKey)
    requires Inv(s, rules) && Enabled(s, name, rules, step) && OneDigest(s, digest)
    requires key in After(s, name, rules, step).rows
    ensures (key in s.rows && After(s, name, rules, step).rows[key] == s.rows[key])
            || Settled(After(s, name, rules, step).rows[key].row, rules(digest))
  {
    if step.Write? { assert RunningOk(T(s), rules, s.replicas[step.r].running.value); }
  }

  /** While every replica has one set of rules, settled rows stay settled,
      whatever is ingested, rechecked or half rechecked. */
  lemma {:induction false} SettledStays(s: State, name: Naming, rules: RulesOf, steps: seq<Step>, digest: string)
    requires Inv(s, rules) && Run(s, name, rules, steps) && OneDigest(s, digest) && AllSettled(s.rows, rules(digest))
    requires forall i :: 0 <= i < |steps| && steps[i].Learn? ==> steps[i].digest == digest
    ensures AllSettled(End(s, name, rules, steps).rows, rules(digest))
    decreases |steps|
  {
    if steps != [] {
      var u := After(s, name, rules, steps[0]);
      StepKeepsOneDigest(s, name, rules, steps[0], digest);
      StepKeeps(s, name, rules, steps[0]);
      forall key | key in u.rows ensures Settled(u.rows[key].row, rules(digest)) {
        ChangedIsSettled(s, name, rules, steps[0], digest, key);
        if key in s.rows { assert Settled(s.rows[key].row, rules(digest)); }
      }
      assert forall i :: 0 <= i < |steps[1..]| ==> steps[1..][i] == steps[i + 1];
      SettledStays(u, name, rules, steps[1..], digest);
    }
  }

  /** What a replica's recheck has left to do: every row is settled, or it is
      still to read or to write and was not checked after the recheck began. */
  ghost predicate Settling(s: State, r: nat, e: Option<Decider>) {
    && r in s.replicas && s.replicas[r].running.Some?
    && forall key :: key in s.rows && !Settled(s.rows[key].row, e) ==>
         && (key in s.replicas[r].running.value.unread || key in s.replicas[r].running.value.changed)
         && s.rows[key].at <= s.replicas[r].running.value.now
  }

  lemma StepKeepsSettling(s: State, name: Naming, rules: RulesOf, step: Step, r: nat, digest: string)
    requires Inv(s, rules) && Enabled(s, name, rules, step) && OneDigest(s, digest) && Settling(s, r, rules(digest))
    requires r in After(s, name, rules, step).replicas && After(s, name, rules, step).replicas[r].running.Some?
    ensures Settling(After(s, name, rules, step), r, rules(digest))
  {
    var u := After(s, name, rules, step);
    RunningSame(s, name, rules, step, r);
    forall key | key in u.rows && !Settled(u.rows[key].row, rules(digest))
      ensures key in u.replicas[r].running.value.unread || key in u.replicas[r].running.value.changed
      ensures u.rows[key].at <= u.replicas[r].running.value.now
    {
      ChangedIsSettled(s, name, rules, step, digest, key);
      RunningRow(s, name, rules, step, r, key);
    }
  }

  /** The recheck goes on through the run, to its end. */
  ghost predicate RunsThrough(s: State, name: Naming, rules: RulesOf, steps: seq<Step>, r: nat)
    requires Run(s, name, rules, steps)
    decreases |steps|
  {
    && r in s.replicas && s.replicas[r].running.Some?
    && (steps == [] || RunsThrough(After(s, name, rules, steps[0]), name, rules, steps[1..], r))
  }

  lemma {:induction false} RunKeepsSettling(s: State, name: Naming, rules: RulesOf, steps: seq<Step>, r: nat, digest: string)
    requires Inv(s, rules) && Run(s, name, rules, steps) && OneDigest(s, digest) && Settling(s, r, rules(digest))
    requires RunsThrough(s, name, rules, steps, r)
    requires forall i :: 0 <= i < |steps| && steps[i].Learn? ==> steps[i].digest == digest
    ensures Settling(End(s, name, rules, steps), r, rules(digest))
    decreases |steps|
  {
    if steps != [] {
      StepKeepsOneDigest(s, name, rules, steps[0], digest);
      StepKeeps(s, name, rules, steps[0]);
      StepKeepsSettling(s, name, rules, steps[0], r, digest);
      assert forall i :: 0 <= i < |steps[1..]| ==> steps[1..][i] == steps[i + 1];
      RunKeepsSettling(After(s, name, rules, steps[0]), name, rules, steps[1..], r, digest);
    }
  }

  lemma BeginSettles(s: State, name: Naming, rules: RulesOf, r: nat, job: JobId, version: int, now: int, digest: string)
    requires Enabled(s, name, rules, Begin(r, job, version, now))
    requires forall key :: key in s.rows && !Settled(s.rows[key].row, rules(digest)) ==> s.rows[key].at <= now
    ensures Settling(After(s, name, rules, Begin(r, job, version, now)), r, rules(digest))
  {
  }

  /** Once all replicas have one set of rules, a recheck that runs to its end
      leaves every stored row as those rules decide, whatever was ingested,
      rechecked or half rechecked beside it, unless a row was stored before it
      began with a check time ahead of the clock it began by. */
  lemma RecheckSettles(s: State, name: Naming, rules: RulesOf, r: nat, job: JobId, version: int, now: int, beside: seq<Step>, digest: string)
    requires Inv(s, rules) && OneDigest(s, digest) && Enabled(s, name, rules, Begin(r, job, version, now))
    requires forall key :: key in s.rows && !Settled(s.rows[key].row, rules(digest)) ==> s.rows[key].at <= now
    requires var u := After(s, name, rules, Begin(r, job, version, now));
             && Run(u, name, rules, beside) && RunsThrough(u, name, rules, beside, r)
             && Enabled(End(u, name, rules, beside), name, rules, Conclude(r))
    requires forall i :: 0 <= i < |beside| && beside[i].Learn? ==> beside[i].digest == digest
    ensures AllSettled(End(After(s, name, rules, Begin(r, job, version, now)), name, rules, beside).rows, rules(digest))
  {
    var u := After(s, name, rules, Begin(r, job, version, now));
    StepKeeps(s, name, rules, Begin(r, job, version, now));
    StepKeepsOneDigest(s, name, rules, Begin(r, job, version, now), digest);
    BeginSettles(s, name, rules, r, job, version, now, digest);
    RunKeepsSettling(u, name, rules, beside, r, digest);
  }

  /** No write of a recheck changes a row that was checked after the clock it began by. */
  lemma LaterCheckStands(s: State, name: Naming, rules: RulesOf, step: Step, key: RowKey)
    requires Enabled(s, name, rules, step) && step.Write?
    requires key in s.rows && s.rows[key].at > s.replicas[step.r].running.value.now
    ensures key in After(s, name, rules, step).rows && After(s, name, rules, step).rows[key] == s.rows[key]
  {
  }

  /** Only the recheck of r stores rows. */
  ghost predicate Alone(steps: seq<Step>, r: nat) {
    forall i :: 0 <= i < |steps| ==> !steps[i].Ingest? && (steps[i].Write? ==> steps[i].r == r)
  }

  lemma {:induction false} LaterRowStands(s: State, name: Naming, rules: RulesOf, steps: seq<Step>, r: nat, key: RowKey)
    requires Run(s, name, rules, steps) && RunsThrough(s, name, rules, steps, r) && Alone(steps, r)
    requires key in s.rows && s.rows[key].at > s.replicas[r].running.value.now
    ensures key in End(s, name, rules, steps).rows && End(s, name, rules, steps).rows[key] == s.rows[key]
    decreases |steps|
  {
    if steps != [] {
      assert (steps[0].Write? ==> steps[0].r == r) && !steps[0].Ingest?;
      if steps[0].Write? { LaterCheckStands(s, name, rules, steps[0], key); }
      RunningSame(s, name, rules, steps[0], r);
      assert forall i :: 0 <= i < |steps[1..]| ==> steps[1..][i] == steps[i + 1];
      LaterRowStands(After(s, name, rules, steps[0]), name, rules, steps[1..], r, key);
    }
  }

  /** The condition is exact: while nobody else stores rows, the recheck leaves all
      of them settled if and only if no unsettled one was checked ahead of its clock. */
  lemma RecheckAloneSettles(s: State, name: Naming, rules: RulesOf, r: nat, job: JobId, version: int, now: int, beside: seq<Step>, digest: string)
    requires Inv(s, rules) && OneDigest(s, digest) && Enabled(s, name, rules, Begin(r, job, version, now)) && Alone(beside, r)
    requires var u := After(s, name, rules, Begin(r, job, version, now));
             && Run(u, name, rules, beside) && RunsThrough(u, name, rules, beside, r)
             && Enabled(End(u, name, rules, beside), name, rules, Conclude(r))
    requires forall i :: 0 <= i < |beside| && beside[i].Learn? ==> beside[i].digest == digest
    ensures AllSettled(End(After(s, name, rules, Begin(r, job, version, now)), name, rules, beside).rows, rules(digest)) <==>
            forall key :: key in s.rows && !Settled(s.rows[key].row, rules(digest)) ==> s.rows[key].at <= now
  {
    var u := After(s, name, rules, Begin(r, job, version, now));
    if forall key :: key in s.rows && !Settled(s.rows[key].row, rules(digest)) ==> s.rows[key].at <= now {
      RecheckSettles(s, name, rules, r, job, version, now, beside, digest);
    }
    if key :| key in s.rows && !Settled(s.rows[key].row, rules(digest)) && s.rows[key].at > now {
      LaterRowStands(u, name, rules, beside, r, key);
    }
  }

  // ---------------------------------------------------------------------
  // A recheck by itself
  // ---------------------------------------------------------------------

  /** A stored row is rewritten at the recheck's time when its reason or one of its
      lists changes under the rules, in any order, and stays as it was otherwise or
      when it was checked later. */
  ghost predicate RecheckedTo(was: Check, left: Check, at: int, e: Option<Decider>) {
    var r, next := was.row.result, Reevaluated(was.row.result, e, was.row.documentName);
    var same := next.reason == r.reason && multiset(next.nonCompliant) == multiset(r.nonCompliant)
                && multiset(next.exempted) == multiset(r.exempted);
    left == if same || was.at > at then was
          else Check(StoredRow(Result(r.licenseId, r.category, r.packageCount, next.nonCompliant, next.exempted, next.reason),
                               was.row.documentName), at)
  }

  /** The cursor at its end, with every row it yields as the table has it now. */
  ghost function AllRead(run: Running, rows: Checks, e: Option<Decider>): Running {
    run.(unread := {}, changed := run.changed + ChangedRows(run.unread, rows, e))
  }

  ghost function ChangedRows(keys: set<RowKey>, rows: Checks, e: Option<Decider>): Rows {
    map key | key in keys && key in rows && Rechecked(rows[key].row, e) != rows[key].row :: Rechecked(rows[key].row, e)
  }

  lemma MovesEntry<K, V>(a: map<K, V>, b: map<K, V>, key: K, value: V)
    requires key !in b
    ensures a[key := value] + b == a + b[key := value]
  {
  }

  lemma ChangedNext(keys: set<RowKey>, rows: Checks, e: Option<Decider>, key: RowKey)
    requires key in keys && key in rows
    ensures key !in ChangedRows(keys - {key}, rows, e)
    ensures var row := Rechecked(rows[key].row, e);
            ChangedRows(keys, rows, e) ==
            if row == rows[key].row then ChangedRows(keys - {key}, rows, e) else ChangedRows(keys - {key}, rows, e)[key := row]
  {
  }

  lemma ReadOne(run: Running, rows: Checks, e: Option<Decider>, key: RowKey)
    requires key in run.unread && key in rows && run.unread !! run.changed.Keys
    ensures var next := ReadNext(run, key, rows[key].row, e);
            next.unread !! next.changed.Keys && AllRead(next, rows, e) == AllRead(run, rows, e)
  {
    ChangedNext(run.unread, rows, e, key);
    MovesEntry(run.changed, ChangedRows(run.unread - {key}, rows, e), key, Rechecked(rows[key].row, e));
  }

  function WithRunning(s: State, r: nat, run: Running): State
    requires r in s.replicas
  {
    s.(replicas := s.replicas[r := s.replicas[r].(running := Some(run))])
  }

  lemma WithRunningTwice(s: State, r: nat, run: Running, other: Running)
    requires r in s.replicas
    ensures WithRunning(WithRunning(s, r, run), r, other) == WithRunning(s, r, other)
  {
  }

  lemma OneStep(s: State, name: Naming, rules: RulesOf, step: Step, rest: seq<Step>)
    requires Enabled(s, name, rules, step) && Run(After(s, name, rules, step), name, rules, rest)
    ensures Run(s, name, rules, [step] + rest)
    ensures End(s, name, rules, [step] + rest) == End(After(s, name, rules, step), name, rules, rest)
  {
    assert ([step] + rest)[1..] == rest;
  }

  lemma ReadRowStep(s: State, name: Naming, rules: RulesOf, r: nat, key: RowKey, run: Running)
    requires r in s.replicas && s.replicas[r].running == Some(run) && key in run.unread && key in s.rows
    ensures Enabled(s, name, rules, ReadRow(r, key))
    ensures After(s, name, rules, ReadRow(r, key)) == WithRunning(s, r, ReadNext(run, key, s.rows[key].row, rules(run.digest)))
  {
  }

  /** The cursor can always be read to its end. */
  lemma {:induction false} ReadsAll(s: State, name: Naming, rules: RulesOf, r: nat, run: Running) returns (steps: seq<Step>)
    requires r in s.replicas && s.replicas[r].running == Some(run)
    requires run.unread <= s.rows.Keys && run.unread !! run.changed.Keys
    ensures Run(s, name, rules, steps)
    ensures End(s, name, rules, steps) == WithRunning(s, r, AllRead(run, s.rows, rules(run.digest)))
    decreases |run.unread|
  {
    if run.unread == {} {
      steps := [];
      assert run.changed + ChangedRows({}, s.rows, rules(run.digest)) == run.changed;
      assert WithRunning(s, r, run) == s;
    } else {
      var key :| key in run.unread;
      var next := ReadNext(run, key, s.rows[key].row, rules(run.digest));
      var u := WithRunning(s, r, next);
      ReadOne(run, s.rows, rules(run.digest), key);
      ReadRowStep(s, name, rules, r, key, run);
      var rest := ReadsAll(u, name, rules, r, next);
      OneStep(s, name, rules, ReadRow(r, key), rest);
      steps := [ReadRow(r, key)] + rest;
      WithRunningTwice(s, r, next, AllRead(run, s.rows, rules(run.digest)));
    }
  }

  lemma RecheckedMeans(was: Check, left: Check, at: int, e: Option<Decider>)
    requires left == if Rechecked(was.row, e) == was.row || was.at > at then was else Check(Rechecked(was.row, e), at)
    ensures RecheckedTo(was, left, at, e)
  {
  }

  lemma WrittenAt(rows: Checks, run: Running, keys: set<RowKey>, key: RowKey)
    requires keys <= run.changed.Keys && keys <= rows.Keys && key in rows
    ensures Written(rows, run, keys).Keys == rows.Keys
    ensures Written(rows, run, keys)[key] ==
            if key in keys && rows[key].at <= run.now then Check(run.changed[key], run.now) else rows[key]
  {
    assert rows.Keys + keys == rows.Keys;
  }

  /** Every row is rechecked. */
  ghost predicate AllRechecked(rows: Checks, after: Checks, at: int, e: Option<Decider>) {
    after.Keys == rows.Keys && forall key :: key in rows ==> RecheckedTo(rows[key], after[key], at, e)
  }

  lemma ChangedAt(keys: set<RowKey>, rows: Checks, e: Option<Decider>, key: RowKey)
    requires key in keys && key in rows
    ensures key in ChangedRows(keys, rows, e) <==> Rechecked(rows[key].row, e) != rows[key].row
    ensures key in ChangedRows(keys, rows, e) ==> ChangedRows(keys, rows, e)[key] == Rechecked(rows[key].row, e)
  {
  }

  lemma WrittenRowRechecked(rows: Checks, run: Running, e: Option<Decider>, key: RowKey)
    requires run.changed == ChangedRows(rows.Keys, rows, e) && run.changed.Keys <= rows.Keys && key in rows
    ensures key in Written(rows, run, run.changed.Keys)
    ensures RecheckedTo(rows[key], Written(rows, run, run.changed.Keys)[key], run.now, e)
  {
    ChangedAt(rows.Keys, rows, e, key);
    WrittenAt(rows, run, run.changed.Keys, key);
    RecheckedMeans(rows[key], Written(rows, run, run.changed.Keys)[key], run.now, e);
  }

  lemma ChangedAmong(keys: set<RowKey>, rows: Checks, e: Option<Decider>)
    ensures ChangedRows(keys, rows, e).Keys <= keys
  {
  }

  lemma WrittenKeys(rows: Checks, run: Running, keys: set<RowKey>)
    requires keys <= run.changed.Keys && keys <= rows.Keys
    ensures Written(rows, run, keys).Keys == rows.Keys
  {
    assert rows.Keys + keys == rows.Keys;
  }

  lemma WrittenRechecked(rows: Checks, run: Running, e: Option<Decider>, written: Checks)
    requires run.changed == ChangedRows(rows.Keys, rows, e) && written == Written(rows, run, run.changed.Keys)
    ensures AllRechecked(rows, written, run.now, e)
  {
    ChangedAmong(rows.Keys, rows, e);
    WrittenKeys(rows, run, run.changed.Keys);
    forall key | key in rows ensures RecheckedTo(rows[key], written[key], run.now, e) { WrittenRowRechecked(rows, run, e, key); }
  }

  /** Writes what the cursor found in one batch, and concludes. */
  lemma WritesAll(s: State, name: Naming, rules: RulesOf, r: nat, run: Running) returns (steps: seq<Step>)
    requires r in s.replicas && s.replicas[r].running == Some(run) && run.unread == {}
    ensures Run(s, name, rules, steps)
    ensures var e := End(s, name, rules, steps);
            && e.log == s.log && e.rows == Written(s.rows, run, run.changed.Keys)
            && r in e.replicas && e.replicas[r].finding == Some(Finding(run.job, run.version, run.digest, true))
  {
    var write, conclude := Write(r, run.changed.Keys), Conclude(r);
    var u := After(s, name, rules, write);
    assert run.changed - run.changed.Keys == map[];
    assert Enabled(u, name, rules, conclude);
    var v := After(u, name, rules, conclude);
    assert Run(v, name, rules, []);
    OneStep(u, name, rules, conclude, []);
    OneStep(s, name, rules, write, [conclude] + []);
    steps := [write] + ([conclude] + []);
  }

  lemma RunsOn(s: State, name: Naming, rules: RulesOf, r: nat, run: Running) returns (steps: seq<Step>)
    requires r in s.replicas && s.replicas[r].running == Some(run) && run.unread == s.rows.Keys && run.changed == map[]
    ensures Run(s, name, rules, steps)
    ensures var e := End(s, name, rules, steps);
            && e.log == s.log && AllRechecked(s.rows, e.rows, run.now, rules(run.digest))
            && r in e.replicas && e.replicas[r].finding == Some(Finding(run.job, run.version, run.digest, true))
  {
    var read := ReadsAll(s, name, rules, r, run);
    var done := AllRead(run, s.rows, rules(run.digest));
    assert done.changed == ChangedRows(s.rows.Keys, s.rows, rules(run.digest));
    var writes := WritesAll(WithRunning(s, r, done), name, rules, r, done);
    RunAppend(s, name, rules, read, writes);
    steps := read + writes;
    WrittenRechecked(s.rows, done, rules(run.digest), End(s, name, rules, steps).rows);
  }

  lemma BeginStep(s: State, name: Naming, rules: RulesOf, r: nat, job: JobId, version: int, now: int)
    requires Enabled(s, name, rules, Begin(r, job, version, now))
    ensures r in s.replicas
    ensures After(s, name, rules, Begin(r, job, version, now)) ==
            WithRunning(s, r, Running(job, version, s.replicas[r].digest, now, s.rows.Keys, map[]))
  {
  }

  /** A recheck can always run to its end, and by itself it rewrites exactly the rows
      whose outcome changes and leaves the check time of every other. */
  lemma RecheckRuns(s: State, name: Naming, rules: RulesOf, r: nat, job: JobId, version: int, now: int) returns (steps: seq<Step>)
    requires Enabled(s, name, rules, Begin(r, job, version, now))
    ensures Run(s, name, rules, steps) && steps != [] && steps[0] == Begin(r, job, version, now)
    ensures var e, digest := End(s, name, rules, steps), s.replicas[r].digest;
            && e.log == s.log && AllRechecked(s.rows, e.rows, now, rules(digest))
            && r in e.replicas && e.replicas[r].finding == Some(Finding(job, version, digest, true))
  {
    BeginStep(s, name, rules, r, job, version, now);
    var run := Running(job, version, s.replicas[r].digest, now, s.rows.Keys, map[]);
    var rest := RunsOn(WithRunning(s, r, run), name, rules, r, run);
    OneStep(s, name, rules, Begin(r, job, version, now), rest);
    steps := [Begin(r, job, version, now)] + rest;
  }

  // ---------------------------------------------------------------------
  // One successor
  // ---------------------------------------------------------------------

  /** What a converged fleet can have become since the table was before: at most
      one more recheck, j, and no replica about to enqueue anything else. */
  ghost predicate OneAhead(s: State, before: Table, newest: Option<JobId>, j: JobId, digest: string) {
    && (forall r :: r in s.replicas ==> s.replicas[r].digest == digest) && SameJobs(T(s), before, j)
    && (IsRecheck(T(s), j) && !IsRecheck(before, j) ==> T(s)[j].latest.payload == RecheckPayload(digest))
    && IntentsAre(s, Intent(newest, digest))
  }

  /** The rechecks of before, each in its place, and perhaps j. */
  ghost predicate SameJobs(t: Table, before: Table, j: JobId) {
    && (forall id :: IsRecheck(t, id) ==> IsRecheck(before, id) || id == j)
    && (forall id :: IsRecheck(before, id) ==> IsRecheck(t, id) && t[id].first == before[id].first)
  }

  lemma NewestOneAhead(t: Table, before: Table, newest: Option<JobId>, j: JobId, m: Option<JobId>)
    requires SameJobs(t, before, j) && IsNewest(before, newest) && IsNewest(t, m)
    ensures m == newest || (m == Some(j) && !IsRecheck(before, j))
  {
    if newest.Some? { assert IsRecheck(t, newest.value); }
    if m.Some? && IsRecheck(before, m.value) {
      assert IsNewest(before, m) by {
        forall id | IsRecheck(before, id) && id != m.value ensures Later(before, id, m.value) {
          assert IsRecheck(t, id);
        }
      }
      NewestUnique(before, newest, m);
    }
  }

  /** The added recheck neither fails nor stalls: no replica sees it needing a retry. */
  ghost predicate Healthy(s: State, step: Step, j: JobId) {
    step.Read? && step.newest == Some(j) && j in T(s) ==> !NeedsRetry(T(s)[j].latest, step.now)
  }

  /** The row a step sends is the successor's, of a job the table has, or no recheck's. */
  lemma SentRow(s: State, name: Naming, rules: RulesOf, step: Step, newest: Option<JobId>, digest: string) returns (row: Row)
    requires Inv(s, rules) && Enabled(s, name, rules, step) && IntentsAre(s, Intent(newest, digest))
    ensures var after := After(s, name, rules, step);
            after.log == s.log
            || (after.log == s.log + [row] && Orderly(T(s), row) && Expected(T(s), row, name(newest, digest), digest))
  {
    row := StepIsOrderly(s, name, rules, step);
    if step.Finish? { assert Justified(T(s), s.replicas[step.r].finding.value); }
    assert After(s, name, rules, step).log != s.log ==> row == After(s, name, rules, step).log[|s.log|];
  }

  ghost predicate Expected(t: Table, row: Row, j: JobId, digest: string) {
    row.job in t || row.payload.jobType != RecheckType || (row.job == j && row.payload == RecheckPayload(digest))
  }

  ghost predicate IntentsAre(s: State, intent: Intent) {
    forall r :: r in s.replicas && s.replicas[r].intent.Some? ==> s.replicas[r].intent.value == intent
  }

  /** A read that does not find the digest covered finds the recheck that was newest. */
  lemma ReadFindsNewest(t: Table, before: Table, newest: Option<JobId>, j: JobId, m: Option<JobId>, digest: string, now: int)
    requires SameJobs(t, before, j) && IsNewest(before, newest) && IsNewest(t, m)
    requires IsRecheck(t, j) && !IsRecheck(before, j) ==> t[j].latest.payload == RecheckPayload(digest)
    requires m == Some(j) && j in t ==> !NeedsRetry(t[j].latest, now)
    ensures Covers(t, m, digest, now) || m == newest
  {
    NewestOneAhead(t, before, newest, j, m);
  }

  lemma IntentsOneAhead(s: State, name: Naming, rules: RulesOf, step: Step, before: Table, newest: Option<JobId>, digest: string)
    requires Enabled(s, name, rules, step) && IsNewest(before, newest)
    requires OneAhead(s, before, newest, name(newest, digest), digest)
    requires step.Learn? ==> step.digest == digest
    requires Healthy(s, step, name(newest, digest))
    ensures forall r :: r in After(s, name, rules, step).replicas ==> After(s, name, rules, step).replicas[r].digest == digest
    ensures IntentsAre(After(s, name, rules, step), Intent(newest, digest))
  {
    if step.Read? {
      assert s.replicas[step.r].digest == digest;
      ReadFindsNewest(T(s), before, newest, name(newest, digest), step.newest, digest, step.now);
    } else {
      OtherStepsBringNoIntent(s, name, rules, step, Intent(newest, digest), digest);
    }
  }

  lemma OtherStepsBringNoIntent(s: State, name: Naming, rules: RulesOf, step: Step, intent: Intent, digest: string)
    requires Enabled(s, name, rules, step) && !step.Read? && (step.Learn? ==> step.digest == digest)
    requires (forall r :: r in s.replicas ==> s.replicas[r].digest == digest) && IntentsAre(s, intent)
    ensures forall r :: r in After(s, name, rules, step).replicas ==> After(s, name, rules, step).replicas[r].digest == digest
    ensures IntentsAre(After(s, name, rules, step), intent)
  {
  }

  lemma RowStaysOneAhead(t: Table, row: Row, before: Table, j: JobId, digest: string)
    requires Ordered(t) && Orderly(t, row) && SameJobs(t, before, j) && Expected(t, row, j, digest)
    requires IsRecheck(t, j) && !IsRecheck(before, j) ==> t[j].latest.payload == RecheckPayload(digest)
    ensures SameJobs(Apply(t, row), before, j)
    ensures IsRecheck(Apply(t, row), j) && !IsRecheck(before, j) ==> Apply(t, row)[j].latest.payload == RecheckPayload(digest)
  {
  }

  lemma StepStaysOneAhead(s: State, name: Naming, rules: RulesOf, step: Step, before: Table, newest: Option<JobId>, digest: string)
    requires Inv(s, rules) && Enabled(s, name, rules, step) && IsNewest(before, newest)
    requires OneAhead(s, before, newest, name(newest, digest), digest)
    requires step.Learn? ==> step.digest == digest
    requires Healthy(s, step, name(newest, digest))
    ensures OneAhead(After(s, name, rules, step), before, newest, name(newest, digest), digest)
  {
    var after, j := After(s, name, rules, step), name(newest, digest);
    IntentsOneAhead(s, name, rules, step, before, newest, digest);
    var row := SentRow(s, name, rules, step, newest, digest);
    if after.log != s.log {
      LatestOrdered(s.log);
      LatestAppend(s.log, row);
      RowStaysOneAhead(T(s), row, before, j, digest);
      assert T(after) == Apply(T(s), row);
    }
  }

  ghost predicate HealthyRun(s: State, name: Naming, rules: RulesOf, steps: seq<Step>, j: JobId, digest: string)
    requires Run(s, name, rules, steps)
    decreases |steps|
  {
    steps == []
    || (Healthy(s, steps[0], j) && (steps[0].Learn? ==> steps[0].digest == digest)
        && HealthyRun(After(s, name, rules, steps[0]), name, rules, steps[1..], j, digest))
  }

  lemma {:induction false} RunStaysOneAhead(s: State, name: Naming, rules: RulesOf, steps: seq<Step>,
                                            before: Table, newest: Option<JobId>, digest: string)
    requires Inv(s, rules) && Run(s, name, rules, steps) && IsNewest(before, newest)
    requires OneAhead(s, before, newest, name(newest, digest), digest)
    requires HealthyRun(s, name, rules, steps, name(newest, digest), digest)
    ensures OneAhead(End(s, name, rules, steps), before, newest, name(newest, digest), digest)
    decreases |steps|
  {
    if steps != [] {
      StepStaysOneAhead(s, name, rules, steps[0], before, newest, digest);
      StepKeeps(s, name, rules, steps[0]);
      RunStaysOneAhead(After(s, name, rules, steps[0]), name, rules, steps[1..], before, newest, digest);
    }
  }

  /** Once all replicas hold one digest, however they interleave their reads and
      enqueues, and whatever other jobs come, they add at most one recheck between them. */
  lemma ConvergedAddsOneJob(s: State, name: Naming, rules: RulesOf, steps: seq<Step>, newest: Option<JobId>, digest: string)
    requires Inv(s, rules) && Run(s, name, rules, steps) && IsNewest(T(s), newest)
    requires forall r :: r in s.replicas ==> s.replicas[r].digest == digest && s.replicas[r].intent.None?
    requires HealthyRun(s, name, rules, steps, name(newest, digest), digest)
    ensures forall id :: IsRecheck(T(End(s, name, rules, steps)), id) ==> IsRecheck(T(s), id) || id == name(newest, digest)
    ensures forall id :: IsRecheck(T(s), id) ==> IsRecheck(T(End(s, name, rules, steps)), id)
  {
    RunStaysOneAhead(s, name, rules, steps, T(s), newest, digest);
  }

  /** The added job is the newest recheck and covers the digest. */
  lemma AddedJobCovers(s: State, name: Naming, rules: RulesOf, r: nat, created: int, retryAfter: int, now: int)
    requires Enabled(s, name, rules, Step.Enqueue(r, created, retryAfter, true))
    requires name(s.replicas[r].intent.value.newest, s.replicas[r].intent.value.digest) !in T(s)
    requires forall id :: IsRecheck(T(s), id) ==> T(s)[id].first < created
    ensures var i := s.replicas[r].intent.value;
            var after, j := After(s, name, rules, Step.Enqueue(r, created, retryAfter, true)), name(i.newest, i.digest);
            IsNewest(T(after), Some(j)) && Covers(T(after), Some(j), i.digest, now)
  {
    var i := s.replicas[r].intent.value;
    var j := name(i.newest, i.digest);
    LatestAppend(s.log, EnqueueRow(j, RecheckPayload(i.digest), created, retryAfter));
    var after := After(s, name, rules, Step.Enqueue(r, created, retryAfter, true));
    forall id | IsRecheck(T(after), id) && id != j ensures Later(T(after), id, j) {
      assert IsRecheck(T(s), id);
    }
  }
}
