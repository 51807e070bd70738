/** Workers claiming and finishing queue jobs under the claim lock, as one global
    transition system (internal/clickhouse/queue.go, internal/claimlock/lock.go
    and the poll loop of cmd/parsing-worker/main.go). Every database statement is
    one step; steps of different processes interleave freely, the server's clock
    reads anything at any statement, and processes crash at any point. */
module ClaimProtocol {
  import opened Text
  import opened Queue

  const MaxHold := 5000
  const RenewDeadline := 10000

  // ---------------------------------------------------------------------
  // States
  // ---------------------------------------------------------------------

  /** A process. A restarted worker is a new process under the same worker id. */
  type Pid = nat

  type Jobs = map<JobId, Job>

  /** How far a critical section has come. */
  datatype Stage =
    | Entered
    | Releasing(orphans: Jobs)
    | Claiming(todo: Jobs, sent: Jobs)
    | Verified

  datatype Phase =
    | Idle
    | Waiting(start: int)
    | Section(start: int, acquired: int, stage: Stage)
    | Executing

  /** held: the jobs whose claim the table has confirmed and that are not finished. */
  datatype Proc = Proc(worker: string, alive: bool, phase: Phase, held: Jobs)

  datatype Lease = Lease(holder: Pid, acquired: int)

  /** An accepted critical section, from acquisition to acceptance. */
  datatype Interval = Interval(pid: Pid, from: int, to: int)

  /** swept: rows a sweep has read and not yet put back. hit: jobs whose latest row
      a sweep or a second enqueue has replaced while a live process held them, until
      no process has to do with them any more. */
  datatype State = State(
    now: int,
    log: seq<Row>,
    procs: map<Pid, Proc>,
    lease: Option<Lease>,
    swept: set<Job>,
    hit: set<JobId>,
    accepted: seq<Interval>)

  const Initial := State(0, [], map[], None, {}, {}, [])

  function T(s: State): Table { Latest(s.log) }

  predicate Active(p: Proc, now: int) {
    p.phase.Section? && now < p.phase.start + MaxHold
  }

  predicate Holds(p: Proc, j: JobId) {
    p.alive && j in p.held
  }

  predicate LiveHolder(s: State, j: JobId) {
    exists p :: p in s.procs && Holds(s.procs[p], j)
  }

  // ---------------------------------------------------------------------
  // Steps
  // ---------------------------------------------------------------------

  // Forget is no event of the system but bookkeeping: it drops a job from hit.

  datatype Outcome = Completed | FailedWith(message: string) | DeferredUntil(until: int, reason: string)

  datatype Step =
    | Tick(to: int)
    | Start(pid: Pid, worker: string)
    | Crash(pid: Pid)
    | Begin(pid: Pid)
    | Acquire(pid: Pid)
    | GiveUp(pid: Pid)
    | ReadOwn(pid: Pid, orphans: Jobs)
    | ReleaseOne(pid: Pid, job: JobId, clock: int, retryAfter: int)
    | SelectDue(pid: Pid, todo: Jobs, sqlNow: int)
    | InsertOne(pid: Pid, job: JobId, clock: int)
    | Verify(pid: Pid)
    | Accept(pid: Pid, releases: bool)
    | Discard(pid: Pid, releases: bool)
    | WriteStatus(pid: Pid, job: JobId, outcome: Outcome, clock: int, lands: bool)
    | SweepRead(job: JobId, sqlNow: int)
    | SweepWrite(item: Job, clock: int, retryAfter: int)
    | EnqueueJob(job: JobId, payload: Payload, created: int, retryAfter: int)
    | Forget(job: JobId)

  function OwnClaims(t: Table, worker: string): Jobs {
    map id | id in t && OwnClaim(t[id], worker) :: JobOf(id, t[id])
  }

  predicate CanRelease(s: State, pid: Pid, j: JobId) {
    && pid in s.procs && Active(s.procs[pid], s.now)
    && s.procs[pid].phase.stage.Releasing? && j in s.procs[pid].phase.stage.orphans
  }

  predicate CanInsert(s: State, pid: Pid, j: JobId) {
    && pid in s.procs && Active(s.procs[pid], s.now)
    && s.procs[pid].phase.stage.Claiming? && j in s.procs[pid].phase.stage.todo
  }

  predicate LivesIn(s: State, pid: Pid) {
    pid in s.procs && s.procs[pid].alive && s.procs[pid].phase.Section?
  }

  predicate CanAcquire(s: State, pid: Pid) {
    && pid in s.procs && s.procs[pid].alive && s.procs[pid].phase.Waiting?
    && (s.lease.None? || s.lease.value.holder == pid || s.now >= s.lease.value.acquired + RenewDeadline)
  }

  predicate Enabled(s: State, step: Step) {
    match step
    case Tick(to) => to >= s.now
    case Start(pid, worker) =>
      pid !in s.procs && forall p :: p in s.procs && s.procs[p].alive ==> s.procs[p].worker != worker
    case Crash(pid) => pid in s.procs
    case Begin(pid) =>
      pid in s.procs && s.procs[pid].alive && s.procs[pid].held == map[]
      && (s.procs[pid].phase.Idle? || s.procs[pid].phase.Executing?)
    case Acquire(pid) => CanAcquire(s, pid)
    case GiveUp(pid) => pid in s.procs && s.procs[pid].alive && s.procs[pid].phase.Waiting?
    case ReadOwn(pid, orphans) =>
      && LivesIn(s, pid) && s.procs[pid].phase.stage.Entered?
      && |orphans| <= SweepLimit
      && (forall j :: j in orphans ==> j in OwnClaims(T(s), s.procs[pid].worker) && orphans[j] == OwnClaims(T(s), s.procs[pid].worker)[j])
      && (|orphans| < SweepLimit ==> orphans == OwnClaims(T(s), s.procs[pid].worker))
    case ReleaseOne(pid, j, clock, retryAfter) => CanRelease(s, pid, j)
    case SelectDue(pid, todo, sqlNow) =>
      && LivesIn(s, pid) && s.procs[pid].phase.stage == Releasing(map[])
      && (forall j :: j in todo ==> j in T(s) && PendingAndDue(T(s)[j], sqlNow) && todo[j] == JobOf(j, T(s)[j]))
    case InsertOne(pid, j, clock) => CanInsert(s, pid, j)
    case Verify(pid) => LivesIn(s, pid) && s.procs[pid].phase.stage.Claiming?
    case Accept(pid, releases) => LivesIn(s, pid) && s.procs[pid].phase.stage.Verified? && Active(s.procs[pid], s.now)
    case Discard(pid, releases) => LivesIn(s, pid)
    case WriteStatus(pid, j, outcome, clock, lands) =>
      pid in s.procs && s.procs[pid].alive && s.procs[pid].phase.Executing? && j in s.procs[pid].held
    case SweepRead(j, sqlNow) => j in T(s) && StaleClaim(T(s)[j], sqlNow)
    case SweepWrite(item, clock, retryAfter) => item in s.swept
    case EnqueueJob(j, payload, created, retryAfter) => j in T(s) ==> payload == T(s)[j].latest.payload
    case Forget(j) => forall p :: p in s.procs ==> !Concerns(s.procs[p], s.now, j)
  }

  /** j is among the jobs an active section is about to put back or to claim. */
  predicate Handles(p: Proc, now: int, j: JobId) {
    && Active(p, now)
    && ((p.phase.stage.Releasing? && j in p.phase.stage.orphans) || (p.phase.stage.Claiming? && j in p.phase.stage.todo))
  }

  /** The process holds the job, handles it, or has sent a claim of it. */
  predicate Concerns(p: Proc, now: int, j: JobId) {
    || Holds(p, j) || Handles(p, now, j)
    || (p.alive && p.phase.Section? && p.phase.stage.Claiming? && j in p.phase.stage.sent)
  }

  function WithProc(s: State, pid: Pid, p: Proc): State {
    s.(procs := s.procs[pid := p])
  }

  function WithPhase(s: State, pid: Pid, phase: Phase): State
    requires pid in s.procs
  {
    WithProc(s, pid, s.procs[pid].(phase := phase))
  }

  function WithStage(s: State, pid: Pid, stage: Stage): State
    requires pid in s.procs && s.procs[pid].phase.Section?
  {
    WithPhase(s, pid, s.procs[pid].phase.(stage := stage))
  }

  function Send(s: State, row: Row): State {
    s.(log := s.log + [row])
  }

  /** The row becomes the latest of its job. */
  predicate Supersedes(t: Table, row: Row) {
    row.job in t ==> t[row.job].latest.created < row.created
  }

  /** Sends a row that pays no heed to who holds the job. */
  function SendBlindly(s: State, row: Row): State {
    Send(s, row).(hit := if LiveHolder(s, row.job) && Supersedes(T(s), row) then s.hit + {row.job} else s.hit)
  }

  function LeaseAfter(s: State, pid: Pid, releases: bool): Option<Lease> {
    if releases && s.lease.Some? && s.lease.value.holder == pid then None else s.lease
  }

  function StatusRow(job: Job, outcome: Outcome, clock: int): Row {
    match outcome
    case Completed => DoneRow(job, clock)
    case FailedWith(message) => FailRow(job, clock, message)
    case DeferredUntil(until, reason) => DeferRow(job, clock, until, reason)
  }

  function ReleaseRow(p: Proc, j: JobId, clock: int, retryAfter: int): Row
    requires p.phase.Section? && p.phase.stage.Releasing? && j in p.phase.stage.orphans
  {
    DeferRow(p.phase.stage.orphans[j], clock, retryAfter, "requeued: claim abandoned by " + p.worker)
  }

  function InsertRow(p: Proc, j: JobId, clock: int): Row
    requires p.phase.Section? && p.phase.stage.Claiming? && j in p.phase.stage.todo
  {
    ClaimRow(Claimed(p.phase.stage.todo[j], p.worker, clock))
  }

  function After(s: State, step: Step): State
    requires Enabled(s, step)
  {
    match step
    case Tick(to) => s.(now := to)
    case Start(pid, worker) => WithProc(s, pid, Proc(worker, true, Idle, map[]))
    case Crash(pid) => WithProc(s, pid, s.procs[pid].(alive := false))
    case Begin(pid) => WithPhase(s, pid, Waiting(s.now))
    case Acquire(pid) =>
      WithPhase(s, pid, Section(s.procs[pid].phase.start, s.now, Entered)).(lease := Some(Lease(pid, s.now)))
    case GiveUp(pid) => WithPhase(s, pid, Idle)
    case ReadOwn(pid, orphans) => WithStage(s, pid, Releasing(orphans))
    case ReleaseOne(pid, j, clock, retryAfter) =>
      var p := s.procs[pid];
      Send(WithStage(s, pid, Releasing(p.phase.stage.orphans - {j})),
           ReleaseRow(p, j, clock, retryAfter))
    case SelectDue(pid, todo, sqlNow) => WithStage(s, pid, Claiming(todo, map[]))
    case InsertOne(pid, j, clock) =>
      var p := s.procs[pid];
      var claim := Claimed(p.phase.stage.todo[j], p.worker, clock);
      Send(WithStage(s, pid, Claiming(p.phase.stage.todo - {j}, p.phase.stage.sent[j := claim])), ClaimRow(claim))
    case Verify(pid) =>
      var p := s.procs[pid];
      WithProc(s, pid, p.(phase := p.phase.(stage := Verified), held := ConfirmedJobs(T(s), p.worker, p.phase.stage.sent)))
    case Accept(pid, releases) =>
      WithPhase(s, pid, Executing)
        .(lease := LeaseAfter(s, pid, releases), accepted := s.accepted + [Interval(pid, s.procs[pid].phase.acquired, s.now)])
    case Discard(pid, releases) =>
      WithProc(s, pid, s.procs[pid].(phase := Idle, held := map[])).(lease := LeaseAfter(s, pid, releases))
    case WriteStatus(pid, j, outcome, clock, lands) =>
      var p := s.procs[pid];
      var done := WithProc(s, pid, p.(held := p.held - {j}));
      if lands then Send(done, StatusRow(p.held[j], outcome, clock)) else done
    case SweepRead(j, sqlNow) => s.(swept := s.swept + {JobOf(j, T(s)[j])})
    case SweepWrite(item, clock, retryAfter) =>
      SendBlindly(s, DeferRow(item, clock, retryAfter, SweepMessage))
    case EnqueueJob(j, payload, created, retryAfter) => SendBlindly(s, EnqueueRow(j, payload, created, retryAfter))
    case Forget(j) => s.(hit := s.hit - {j})
  }

  /** The sent claims whose job is, by its latest row, processing for the worker. */
  function ConfirmedJobs(t: Table, worker: string, sent: Jobs): Jobs {
    map j | j in sent && j in t && OwnClaim(t[j], worker) :: sent[j]
  }

  // ---------------------------------------------------------------------
  // The invariant
  // ---------------------------------------------------------------------

  predicate Timed(p: Proc, now: int) {
    && (p.phase.Waiting? ==> p.phase.start <= now)
    && (p.phase.Section? ==> p.phase.start <= p.phase.acquired <= now)
  }

  /** Only a verified section and an executing process hold jobs. */
  predicate Shaped(p: Proc) {
    p.held != map[] ==> p.phase.Executing? || (p.phase.Section? && p.phase.stage.Verified?)
  }

  ghost predicate Shapes(s: State) {
    forall p :: p in s.procs ==> Timed(s.procs[p], s.now) && Shaped(s.procs[p])
  }

  /** A section that may still write has the lease. */
  ghost predicate Leased(s: State) {
    forall p :: p in s.procs && Active(s.procs[p], s.now) ==> s.lease == Some(Lease(p, s.procs[p].phase.acquired))
  }

  ghost predicate WorkersDistinct(s: State) {
    forall p, q :: p in s.procs && q in s.procs && p != q && s.procs[p].alive && s.procs[q].alive ==>
      s.procs[p].worker != s.procs[q].worker
  }

  /** While a section may still write, another live process of the same worker
      has not come to its own section. */
  predicate Newcomer(p: Proc, q: Proc, now: int) {
    Active(p, now) && q.alive && p.worker == q.worker ==> !q.phase.Section? && q.held == map[]
  }

  ghost predicate Newcomers(s: State) {
    forall p, q :: p in s.procs && q in s.procs && p != q ==> Newcomer(s.procs[p], s.procs[q], s.now)
  }

  /** What a process may rely on about job j. */
  predicate Relies(t: Table, p: Proc, now: int, j: JobId) {
    && (Holds(p, j) ==> j in t && OwnClaim(t[j], p.worker) && t[j].latest.created == p.held[j].version)
    && (Active(p, now) && p.phase.stage.Releasing? && j in p.phase.stage.orphans ==>
          j in t && (OwnClaim(t[j], p.worker) || t[j].latest.status == Pending))
    && (Active(p, now) && p.phase.stage.Claiming? && j in p.phase.stage.todo ==>
          j in t && t[j].latest.status == Pending)
    && (p.alive && p.phase.Section? && p.phase.stage.Claiming? && j in p.phase.stage.sent ==>
          j in t && (OwnClaim(t[j], p.worker) ==> t[j].latest.created == p.phase.stage.sent[j].version))
  }

  ghost predicate AllRely(s: State) {
    forall p, j: JobId :: p in s.procs && j !in s.hit ==> Relies(T(s), s.procs[p], s.now, j)
  }

  /** A job somebody read or wrote is still the job the table has. */
  predicate Carries(t: Table, job: Job, j: JobId) {
    && job.id == j && j in t && job.payload == t[j].latest.payload
    && t[j].first <= job.version <= t[j].latest.created
  }

  predicate CarriesAll(t: Table, jobs: Jobs) {
    forall j :: j in jobs ==> Carries(t, jobs[j], j)
  }

  predicate StageCarries(t: Table, stage: Stage) {
    match stage
    case Entered => true
    case Releasing(orphans) => CarriesAll(t, orphans)
    case Claiming(todo, sent) => CarriesAll(t, todo) && CarriesAll(t, sent)
    case Verified => true
  }

  predicate ProcCarries(t: Table, p: Proc) {
    CarriesAll(t, p.held) && (p.phase.Section? ==> StageCarries(t, p.phase.stage))
  }

  ghost predicate AllCarry(s: State) {
    && (forall p :: p in s.procs ==> ProcCarries(T(s), s.procs[p]))
    && (forall job :: job in s.swept ==> Carries(T(s), job, job.id))
  }

  /** Accepted sections follow one another, and a section that may still be
      accepted began after all of them. */
  ghost predicate AcceptedInOrder(s: State) {
    && (forall i :: 0 <= i < |s.accepted| ==> s.accepted[i].from <= s.accepted[i].to <= s.now)
    && (forall i, k :: 0 <= i < k < |s.accepted| ==> s.accepted[i].to <= s.accepted[k].from)
    && (forall p, i :: p in s.procs && Active(s.procs[p], s.now) && 0 <= i < |s.accepted| ==>
          s.accepted[i].to <= s.procs[p].phase.acquired)
  }

  ghost predicate Stamped(t: Table) {
    forall id :: id in t && t[id].latest.status == Processing ==> t[id].latest.claimedAt.Some?
  }

  ghost predicate Inv(s: State) {
    && Shapes(s) && Leased(s) && WorkersDistinct(s) && Newcomers(s)
    && AllRely(s) && AllCarry(s) && AcceptedInOrder(s) && Stamped(T(s))
  }

  // ---------------------------------------------------------------------
  // Steps that write no row
  // ---------------------------------------------------------------------

  /** A change of one process that brings it no new standing among the others. */
  predicate Tame(was: Proc, p: Proc, now: int) {
    && p.worker == was.worker && (p.alive ==> was.alive)
    && (Active(p, now) ==> Active(was, now) && p.phase.acquired == was.phase.acquired)
    && (p.alive && (p.phase.Section? || p.held != map[]) ==> was.phase.Section? || was.held != map[])
  }

  predicate Sound(t: Table, p: Proc, now: int) {
    Timed(p, now) && Shaped(p) && ProcCarries(t, p)
  }

  /** A change of one process, with the table as it was. */
  lemma ProcKeeps(s: State, pid: Pid, p: Proc, after: State)
    requires Inv(s) && Sound(T(s), p, s.now)
    requires forall j: JobId :: j !in s.hit ==> Relies(T(s), p, s.now, j)
    requires after.now == s.now && after.log == s.log && after.procs == s.procs[pid := p]
    requires after.swept == s.swept && after.hit == s.hit
    ensures Shapes(after) && AllRely(after) && AllCarry(after) && Stamped(T(after))
  {
  }

  lemma TameKeeps(s: State, pid: Pid, p: Proc, after: State)
    requires Inv(s) && pid in s.procs && Tame(s.procs[pid], p, s.now)
    requires after.now == s.now && after.procs == s.procs[pid := p] && after.accepted == s.accepted
    requires after.lease == s.lease || (after.lease == None && s.lease.Some? && s.lease.value.holder == pid && !Active(p, s.now))
    ensures Leased(after) && WorkersDistinct(after) && Newcomers(after) && AcceptedInOrder(after)
  {
    forall q, r | q in after.procs && r in after.procs && q != r ensures Newcomer(after.procs[q], after.procs[r], after.now) {
      assert Newcomer(s.procs[q], s.procs[r], s.now);
    }
  }

  lemma TickKeeps(s: State, to: int)
    requires Inv(s) && to >= s.now
    ensures Inv(s.(now := to))
  {
    var after := s.(now := to);
    forall p | p in s.procs ensures Active(s.procs[p], to) ==> Active(s.procs[p], s.now) {}
    forall p, j: JobId | p in s.procs && j !in s.hit ensures Relies(T(after), after.procs[p], to, j) {
      assert Relies(T(s), s.procs[p], s.now, j);
    }
    forall p, q | p in s.procs && q in s.procs && p != q ensures Newcomer(s.procs[p], s.procs[q], to) {
      assert Newcomer(s.procs[p], s.procs[q], s.now);
    }
  }

  lemma StartKeeps(s: State, pid: Pid, worker: string)
    requires Inv(s) && Enabled(s, Start(pid, worker))
    ensures Inv(After(s, Start(pid, worker)))
  {
    var after := After(s, Start(pid, worker));
    ProcKeeps(s, pid, Proc(worker, true, Idle, map[]), after);
    forall q, r | q in after.procs && r in after.procs && q != r ensures Newcomer(after.procs[q], after.procs[r], after.now) {
      if q != pid && r != pid { assert Newcomer(s.procs[q], s.procs[r], s.now); }
    }
  }

  /** Nobody else may still write when the lease is taken. */
  lemma LeaseIsFree(s: State, pid: Pid, q: Pid)
    requires Inv(s) && CanAcquire(s, pid) && q in s.procs
    ensures !Active(s.procs[q], s.now)
  {
  }

  lemma AcquireKeeps(s: State, pid: Pid)
    requires Inv(s) && CanAcquire(s, pid)
    ensures Inv(After(s, Acquire(pid)))
  {
    var after := After(s, Acquire(pid));
    ProcKeeps(s, pid, after.procs[pid], after);
    forall q | q in s.procs ensures !Active(s.procs[q], s.now) { LeaseIsFree(s, pid, q); }
    forall q, r | q in after.procs && r in after.procs && q != r ensures Newcomer(after.procs[q], after.procs[r], after.now) {}
  }

  lemma QuietKeeps(s: State, step: Step)
    requires Inv(s) && Enabled(s, step)
    requires step.Crash? || step.Begin? || step.GiveUp? || step.Discard?
    ensures Inv(After(s, step))
  {
    var after := After(s, step);
    var pid := step.pid;
    assert forall j: JobId :: j !in s.hit ==> Relies(T(s), s.procs[pid], s.now, j);
    ProcKeeps(s, pid, after.procs[pid], after);
    TameKeeps(s, pid, after.procs[pid], after);
  }

  lemma ReadOwnKeeps(s: State, step: Step)
    requires Inv(s) && step.ReadOwn? && Enabled(s, step)
    ensures Inv(After(s, step))
  {
    var after, pid := After(s, step), step.pid;
    var p := after.procs[pid];
    OrphansCarried(s, step);
    forall j: JobId | j !in s.hit ensures Relies(T(s), p, s.now, j) {
      assert Relies(T(s), s.procs[pid], s.now, j);
    }
    ProcKeeps(s, pid, p, after);
    TameKeeps(s, pid, p, after);
  }

  lemma OrphansCarried(s: State, step: Step)
    requires Inv(s) && step.ReadOwn? && Enabled(s, step)
    ensures Sound(T(s), After(s, step).procs[step.pid], s.now)
  {
    LatestOrdered(s.log);
    assert CarriesAll(T(s), step.orphans);
    assert Shaped(s.procs[step.pid]) && Timed(s.procs[step.pid], s.now) && ProcCarries(T(s), s.procs[step.pid]);
  }

  lemma SelectDueKeeps(s: State, step: Step)
    requires Inv(s) && step.SelectDue? && Enabled(s, step)
    ensures Inv(After(s, step))
  {
    var after, pid := After(s, step), step.pid;
    LatestOrdered(s.log);
    ProcKeeps(s, pid, after.procs[pid], after);
    TameKeeps(s, pid, after.procs[pid], after);
  }

  lemma VerifyKeeps(s: State, step: Step)
    requires Inv(s) && step.Verify? && Enabled(s, step)
    ensures Inv(After(s, step))
  {
    var after, pid := After(s, step), step.pid;
    var p := after.procs[pid];
    assert ProcCarries(T(s), s.procs[pid]);
    forall j: JobId | j !in s.hit ensures Relies(T(s), p, s.now, j) {
      assert Relies(T(s), s.procs[pid], s.now, j);
    }
    ProcKeeps(s, pid, p, after);
    TameKeeps(s, pid, p, after);
  }

  lemma AcceptKeeps(s: State, step: Step)
    requires Inv(s) && step.Accept? && Enabled(s, step)
    ensures Inv(After(s, step))
  {
    var after, pid := After(s, step), step.pid;
    var p := after.procs[pid];
    AcceptSound(s, step);
    ProcKeeps(s, pid, p, after);
    TameKeeps(s, pid, p, after.(accepted := s.accepted));
    AcceptKeepsOrder(s, step);
  }

  lemma AcceptSound(s: State, step: Step)
    requires Inv(s) && step.Accept? && Enabled(s, step)
    ensures Sound(T(s), After(s, step).procs[step.pid], s.now)
    ensures forall j: JobId :: j !in s.hit ==> Relies(T(s), After(s, step).procs[step.pid], s.now, j)
  {
    var was := s.procs[step.pid];
    assert Shaped(was) && Timed(was, s.now) && ProcCarries(T(s), was);
    forall j: JobId | j !in s.hit ensures Relies(T(s), After(s, step).procs[step.pid], s.now, j) {
      assert Relies(T(s), was, s.now, j);
    }
  }

  /** The section was the only one that could write, and began after all accepted ones. */
  lemma AcceptKeepsOrder(s: State, step: Step)
    requires Inv(s) && step.Accept? && Enabled(s, step)
    ensures AcceptedInOrder(After(s, step))
  {
    forall q | q in s.procs && q != step.pid ensures !Active(s.procs[q], s.now) {
      assert Active(s.procs[step.pid], s.now);
    }
  }

  // ---------------------------------------------------------------------
  // Steps that write a row
  // ---------------------------------------------------------------------

  /** The row agrees with what its job is. */
  predicate Fits(t: Table, row: Row) {
    && (row.job in t ==> row.payload == t[row.job].latest.payload)
    && (row.status == Processing ==> row.claimedAt.Some?)
  }

  lemma RowKeepsCarries(t: Table, row: Row, job: Job, j: JobId)
    requires Ordered(t) && Fits(t, row) && Carries(t, job, j)
    ensures Carries(Apply(t, row), job, j)
  {
  }

  lemma RowKeepsProcCarries(t: Table, row: Row, p: Proc)
    requires Ordered(t) && Fits(t, row) && ProcCarries(t, p)
    ensures ProcCarries(Apply(t, row), p)
  {
    var u := Apply(t, row);
    forall jobs | CarriesAll(t, jobs) ensures CarriesAll(u, jobs) {
      forall j | j in jobs ensures Carries(u, jobs[j], j) { RowKeepsCarries(t, row, jobs[j], j); }
    }
  }

  /** A row that is no claim upsets a process only by a job it holds, or by
      finishing a job it is about to put back or to claim. */
  lemma RowKeepsRelies(t: Table, row: Row, p: Proc, now: int, j: JobId)
    requires Ordered(t) && Relies(t, p, now, j) && row.status != Processing
    requires row.job == j ==> !Holds(p, j)
    requires row.job == j && row.status != Pending ==> !Handles(p, now, j)
    ensures Relies(Apply(t, row), p, now, j)
  {
  }

  /** While a live process holds a job, no other process holds or handles it. */
  lemma HolderAlone(s: State, pid: Pid, q: Pid, j: JobId)
    requires Inv(s) && j !in s.hit && pid in s.procs && q in s.procs && q != pid && Holds(s.procs[pid], j)
    ensures !Holds(s.procs[q], j) && !Handles(s.procs[q], s.now, j)
  {
    assert Relies(T(s), s.procs[pid], s.now, j) && Relies(T(s), s.procs[q], s.now, j);
    assert Newcomer(s.procs[q], s.procs[pid], s.now);
  }

  /** A job that a section is about to put back or to claim is held by nobody. */
  lemma HandledIsFree(s: State, pid: Pid, q: Pid, j: JobId)
    requires Inv(s) && j !in s.hit && pid in s.procs && q in s.procs && Handles(s.procs[pid], s.now, j)
    ensures !Holds(s.procs[q], j)
  {
    if q != pid && Holds(s.procs[q], j) {
      HolderAlone(s, q, pid, j);
    } else if q == pid {
      assert Shaped(s.procs[pid]);
    }
  }

  /** What remains to be shown of a step that changes one process and sends one row. */
  lemma RowStepKeeps(s: State, pid: Pid, p: Proc, row: Row, after: State)
    requires Inv(s) && pid in s.procs && Fits(T(s), row) && Tame(s.procs[pid], p, s.now)
    requires after == Send(WithProc(s, pid, p), row)
    requires Timed(p, s.now) && Shaped(p) && ProcCarries(T(after), p)
    requires forall q, j: JobId :: q in s.procs && j !in s.hit ==> Relies(T(after), after.procs[q], s.now, j)
    ensures Inv(after)
  {
    LatestAppend(s.log, row);
    LatestOrdered(s.log);
    TameKeeps(s, pid, p, after);
    forall q | q in s.procs && q != pid ensures ProcCarries(T(after), after.procs[q]) {
      RowKeepsProcCarries(T(s), row, s.procs[q]);
    }
    forall job | job in s.swept ensures Carries(T(after), job, job.id) {
      RowKeepsCarries(T(s), row, job, job.id);
    }
  }

  lemma ReleaseSound(s: State, step: Step)
    requires Inv(s) && step.ReleaseOne? && Enabled(s, step)
    ensures var was, p := s.procs[step.pid], After(s, step).procs[step.pid];
            var row := ReleaseRow(was, step.job, step.clock, step.retryAfter);
            && After(s, step) == Send(WithProc(s, step.pid, p), row) && row.job == step.job
            && Fits(T(s), row) && row.status == Pending && Tame(was, p, s.now)
            && Timed(p, s.now) && Shaped(p) && ProcCarries(Apply(T(s), row), p)
  {
    var was := s.procs[step.pid];
    LatestOrdered(s.log);
    assert Shaped(was) && Timed(was, s.now) && ProcCarries(T(s), was) && Carries(T(s), was.phase.stage.orphans[step.job], step.job);
    RowKeepsProcCarries(T(s), ReleaseRow(was, step.job, step.clock, step.retryAfter), was);
  }

  lemma ReleaseKeepsRelies(s: State, step: Step, q: Pid, i: JobId)
    requires Inv(s) && step.ReleaseOne? && Enabled(s, step) && q in s.procs && i !in s.hit
    ensures Relies(Apply(T(s), ReleaseRow(s.procs[step.pid], step.job, step.clock, step.retryAfter)), After(s, step).procs[q], s.now, i)
  {
    var row := ReleaseRow(s.procs[step.pid], step.job, step.clock, step.retryAfter);
    ReleaseSound(s, step);
    LatestOrdered(s.log);
    assert Relies(T(s), s.procs[q], s.now, i);
    if i == step.job { HandledIsFree(s, step.pid, q, i); }
    RowKeepsRelies(T(s), row, s.procs[q], s.now, i);
  }

  lemma ReleaseKeeps(s: State, step: Step)
    requires Inv(s) && step.ReleaseOne? && Enabled(s, step)
    ensures Inv(After(s, step))
  {
    var after, pid := After(s, step), step.pid;
    var row := ReleaseRow(s.procs[pid], step.job, step.clock, step.retryAfter);
    ReleaseSound(s, step);
    LatestAppend(s.log, row);
    forall q, i: JobId | q in s.procs && i !in s.hit ensures Relies(T(after), after.procs[q], s.now, i) {
      ReleaseKeepsRelies(s, step, q, i);
    }
    RowStepKeeps(s, pid, after.procs[pid], row, after);
  }

  /** A claim of a pending job is either the latest row or without effect. */
  lemma ClaimKeepsRelies(s: State, pid: Pid, q: Pid, row: Row, i: JobId)
    requires Inv(s) && CanInsert(s, pid, row.job) && i !in s.hit && q in s.procs && q != pid
    requires row.status == Processing && row.claimedBy == s.procs[pid].worker
    ensures Relies(Apply(T(s), row), s.procs[q], s.now, i)
  {
    LatestOrdered(s.log);
    assert Relies(T(s), s.procs[q], s.now, i);
    if i == row.job {
      HandledIsFree(s, pid, q, i);
      assert !Active(s.procs[q], s.now);
      assert Newcomer(s.procs[pid], s.procs[q], s.now);
    }
  }

  lemma OwnClaimKeepsRelies(s: State, step: Step, i: JobId)
    requires Inv(s) && step.InsertOne? && Enabled(s, step) && i !in s.hit
    ensures Relies(T(After(s, step)), After(s, step).procs[step.pid], s.now, i)
  {
    var was := s.procs[step.pid];
    var claim := Claimed(was.phase.stage.todo[step.job], was.worker, step.clock);
    LatestAppend(s.log, ClaimRow(claim));
    LatestOrdered(s.log);
    assert Relies(T(s), was, s.now, i);
    assert Carries(T(s), was.phase.stage.todo[step.job], step.job) by { assert ProcCarries(T(s), was); }
    assert Shaped(was);
  }

  lemma InsertSound(s: State, step: Step)
    requires Inv(s) && step.InsertOne? && Enabled(s, step)
    ensures var was, p := s.procs[step.pid], After(s, step).procs[step.pid];
            var row := InsertRow(was, step.job, step.clock);
            && After(s, step) == Send(WithProc(s, step.pid, p), row) && row.job == step.job
            && row.status == Processing && row.claimedBy == was.worker
            && Fits(T(s), row) && Tame(was, p, s.now)
            && Timed(p, s.now) && Shaped(p) && ProcCarries(Apply(T(s), row), p)
  {
    var was := s.procs[step.pid];
    LatestOrdered(s.log);
    assert Shaped(was) && Timed(was, s.now) && ProcCarries(T(s), was) && Carries(T(s), was.phase.stage.todo[step.job], step.job);
    RowKeepsProcCarries(T(s), InsertRow(was, step.job, step.clock), was);
  }

  lemma InsertKeeps(s: State, step: Step)
    requires Inv(s) && step.InsertOne? && Enabled(s, step)
    ensures Inv(After(s, step))
  {
    var after, pid := After(s, step), step.pid;
    var row := InsertRow(s.procs[pid], step.job, step.clock);
    InsertSound(s, step);
    LatestAppend(s.log, row);
    forall q, i: JobId | q in s.procs && i !in s.hit ensures Relies(T(after), after.procs[q], s.now, i) {
      if q == pid { OwnClaimKeepsRelies(s, step, i); } else { ClaimKeepsRelies(s, pid, q, row, i); }
    }
    RowStepKeeps(s, pid, after.procs[pid], row, after);
  }

  lemma DroppedStatusKeeps(s: State, step: Step)
    requires Inv(s) && step.WriteStatus? && !step.lands && Enabled(s, step)
    ensures Inv(After(s, step))
  {
    var after, pid := After(s, step), step.pid;
    var was, p := s.procs[pid], after.procs[pid];
    forall i: JobId | i !in s.hit ensures Relies(T(s), p, s.now, i) {
      assert Relies(T(s), was, s.now, i);
    }
    assert ProcCarries(T(s), was) && Shaped(was) && Timed(was, s.now);
    ProcKeeps(s, pid, p, after);
    TameKeeps(s, pid, p, after);
  }

  lemma StatusSound(s: State, step: Step)
    requires Inv(s) && step.WriteStatus? && step.lands && Enabled(s, step)
    ensures var was, p, row := s.procs[step.pid], After(s, step).procs[step.pid], StatusRow(s.procs[step.pid].held[step.job], step.outcome, step.clock);
            && After(s, step) == Send(WithProc(s, step.pid, p), row) && row.job == step.job
            && Fits(T(s), row) && row.status != Processing && Tame(was, p, s.now)
            && Timed(p, s.now) && Shaped(p) && ProcCarries(Apply(T(s), row), p)
  {
    var was := s.procs[step.pid];
    LatestOrdered(s.log);
    assert Shaped(was) && Timed(was, s.now) && ProcCarries(T(s), was) && Carries(T(s), was.held[step.job], step.job);
    RowKeepsProcCarries(T(s), StatusRow(was.held[step.job], step.outcome, step.clock), was);
  }

  lemma StatusKeepsRelies(s: State, step: Step, q: Pid, i: JobId)
    requires Inv(s) && step.WriteStatus? && step.lands && Enabled(s, step) && q in s.procs && i !in s.hit
    ensures Relies(Apply(T(s), StatusRow(s.procs[step.pid].held[step.job], step.outcome, step.clock)), After(s, step).procs[q], s.now, i)
  {
    var pid, j := step.pid, step.job;
    var row := StatusRow(s.procs[pid].held[j], step.outcome, step.clock);
    StatusSound(s, step);
    LatestOrdered(s.log);
    assert Relies(T(s), s.procs[q], s.now, i) && Shaped(s.procs[pid]);
    if q != pid && i == j { HolderAlone(s, pid, q, j); }
    RowKeepsRelies(T(s), row, After(s, step).procs[q], s.now, i);
  }

  lemma StatusKeeps(s: State, step: Step)
    requires Inv(s) && step.WriteStatus? && step.lands && Enabled(s, step)
    ensures Inv(After(s, step))
  {
    var after, pid := After(s, step), step.pid;
    var row := StatusRow(s.procs[pid].held[step.job], step.outcome, step.clock);
    StatusSound(s, step);
    LatestAppend(s.log, row);
    forall q, i: JobId | q in s.procs && i !in s.hit ensures Relies(T(after), after.procs[q], s.now, i) {
      StatusKeepsRelies(s, step, q, i);
    }
    RowStepKeeps(s, pid, after.procs[pid], row, after);
  }

  lemma BlindKeeps(s: State, row: Row)
    requires Inv(s) && Fits(T(s), row) && row.status == Pending
    ensures Inv(SendBlindly(s, row))
  {
    var after := SendBlindly(s, row);
    LatestAppend(s.log, row);
    LatestOrdered(s.log);
    forall q, i: JobId | q in s.procs && i !in after.hit ensures Relies(T(after), s.procs[q], s.now, i) {
      assert Relies(T(s), s.procs[q], s.now, i);
      if i == row.job && !Supersedes(T(s), row) {
        assert T(after)[i].latest == T(s)[i].latest;
      } else {
        RowKeepsRelies(T(s), row, s.procs[q], s.now, i);
      }
    }
    forall q | q in s.procs ensures ProcCarries(T(after), s.procs[q]) {
      RowKeepsProcCarries(T(s), row, s.procs[q]);
    }
    forall job | job in s.swept ensures Carries(T(after), job, job.id) {
      RowKeepsCarries(T(s), row, job, job.id);
    }
  }

  lemma SweepWriteKeeps(s: State, step: Step)
    requires Inv(s) && step.SweepWrite? && Enabled(s, step)
    ensures Inv(After(s, step))
  {
    BlindKeeps(s, DeferRow(step.item, step.clock, step.retryAfter, SweepMessage));
  }

  lemma EnqueueKeeps(s: State, step: Step)
    requires Inv(s) && step.EnqueueJob? && Enabled(s, step)
    ensures Inv(After(s, step))
  {
    BlindKeeps(s, EnqueueRow(step.job, step.payload, step.created, step.retryAfter));
  }

  lemma SectionStepKeeps(s: State, step: Step)
    requires Inv(s) && Enabled(s, step)
    requires step.Acquire? || step.ReadOwn? || step.ReleaseOne? || step.SelectDue? || step.InsertOne? || step.Verify? || step.Accept?
    ensures Inv(After(s, step))
  {
    match step
    case Acquire(pid) => AcquireKeeps(s, pid);
    case ReadOwn(_, _) => ReadOwnKeeps(s, step);
    case ReleaseOne(_, _, _, _) => ReleaseKeeps(s, step);
    case SelectDue(_, _, _) => SelectDueKeeps(s, step);
    case InsertOne(_, _, _) => InsertKeeps(s, step);
    case Verify(_) => VerifyKeeps(s, step);
    case Accept(_, _) => AcceptKeeps(s, step);
  }

  lemma OutsideStepKeeps(s: State, step: Step)
    requires Inv(s) && Enabled(s, step)
    requires step.Tick? || step.Start? || step.SweepRead? || step.SweepWrite? || step.EnqueueJob? || step.Forget?
    ensures Inv(After(s, step))
  {
    match step
    case Tick(to) => TickKeeps(s, to);
    case Start(pid, worker) => StartKeeps(s, pid, worker);
    case SweepRead(_, _) => SweepReadKeeps(s, step);
    case SweepWrite(_, _, _) => SweepWriteKeeps(s, step);
    case EnqueueJob(_, _, _, _) => EnqueueKeeps(s, step);
    case Forget(j) => ForgetKeeps(s, j);
  }

  /** Every step keeps the invariant. */
  lemma StepKeeps(s: State, step: Step)
    requires Inv(s) && Enabled(s, step)
    ensures Inv(After(s, step))
  {
    if step.Crash? || step.Begin? || step.GiveUp? || step.Discard? {
      QuietKeeps(s, step);
    } else if step.WriteStatus? {
      if step.lands { StatusKeeps(s, step); } else { DroppedStatusKeeps(s, step); }
    } else if step.Tick? || step.Start? || step.SweepRead? || step.SweepWrite? || step.EnqueueJob? || step.Forget? {
      OutsideStepKeeps(s, step);
    } else {
      SectionStepKeeps(s, step);
    }
  }

  /** A job that no process has to do with is again like any other. */
  lemma ForgetKeeps(s: State, j: JobId)
    requires Inv(s) && Enabled(s, Forget(j))
    ensures Inv(After(s, Forget(j)))
  {
    forall p | p in s.procs ensures Relies(T(s), s.procs[p], s.now, j) { assert !Concerns(s.procs[p], s.now, j); }
  }

  lemma SweepReadKeeps(s: State, step: Step)
    requires Inv(s) && step.SweepRead? && Enabled(s, step)
    ensures Inv(After(s, step))
  {
    LatestOrdered(s.log);
  }

  // ---------------------------------------------------------------------
  // Whole runs
  // ---------------------------------------------------------------------

  ghost predicate Run(s: State, steps: seq<Step>)
    decreases |steps|
  {
    steps == [] || (Enabled(s, steps[0]) && Run(After(s, steps[0]), steps[1..]))
  }

  ghost function End(s: State, steps: seq<Step>): State
    requires Run(s, steps)
    decreases |steps|
  {
    if steps == [] then s else End(After(s, steps[0]), steps[1..])
  }

  lemma {:induction false} RunKeeps(s: State, steps: seq<Step>)
    requires Inv(s) && Run(s, steps)
    ensures Inv(End(s, steps))
    decreases |steps|
  {
    if steps != [] {
      StepKeeps(s, steps[0]);
      RunKeeps(After(s, steps[0]), steps[1..]);
    }
  }

  ghost predicate Reachable(s: State) {
    exists steps :: Run(Initial, steps) && End(Initial, steps) == s
  }

  lemma ReachableInv(s: State)
    requires Reachable(s)
    ensures Inv(s)
  {
    var steps :| Run(Initial, steps) && End(Initial, steps) == s;
    RunKeeps(Initial, steps);
  }

  /** A live process's job is, by its latest row, processing for that process's
      worker, in the very row the process wrote. */
  lemma HolderOwnsLatestRow(s: State, pid: Pid, j: JobId)
    requires Reachable(s) && pid in s.procs && Holds(s.procs[pid], j) && j !in s.hit
    ensures j in T(s) && OwnClaim(T(s)[j], s.procs[pid].worker)
    ensures T(s)[j].latest.created == s.procs[pid].held[j].version
    ensures T(s)[j].latest.payload == s.procs[pid].held[j].payload
  {
    ReachableInv(s);
    assert Relies(T(s), s.procs[pid], s.now, j);
    assert ProcCarries(T(s), s.procs[pid]);
  }

  /** No two live processes hold one job. */
  lemma OneHolder(s: State, p: Pid, q: Pid, j: JobId)
    requires Reachable(s) && p in s.procs && q in s.procs && j !in s.hit
    requires Holds(s.procs[p], j) && Holds(s.procs[q], j)
    ensures p == q
  {
    ReachableInv(s);
    if p != q { HolderAlone(s, p, q, j); }
  }

  /** Accepted critical sections never overlap, in whichever order they were accepted. */
  lemma AcceptedSectionsDisjoint(s: State, i: nat, k: nat)
    requires Reachable(s) && i < k < |s.accepted|
    ensures s.accepted[i].from <= s.accepted[i].to <= s.accepted[k].from <= s.accepted[k].to
  {
    ReachableInv(s);
  }

  /** Releasing orphaned claims never touches a job that a live process holds. */
  lemma ReleaseSparesHeldJobs(s: State, pid: Pid, j: JobId, clock: int, retryAfter: int)
    requires Reachable(s) && Enabled(s, ReleaseOne(pid, j, clock, retryAfter)) && j !in s.hit
    ensures !LiveHolder(s, j)
  {
    ReachableInv(s);
    forall q | q in s.procs ensures !Holds(s.procs[q], j) { HandledIsFree(s, pid, q, j); }
  }

  /** A claim takes a job from nobody: no live process holds it when its claim
      is written, and the writer holds it, once confirmed, in that row. */
  lemma ClaimSparesHeldJobs(s: State, pid: Pid, j: JobId, clock: int)
    requires Reachable(s) && Enabled(s, InsertOne(pid, j, clock)) && j !in s.hit
    ensures !LiveHolder(s, j) && j in T(s) && T(s)[j].latest.status == Pending
  {
    ReachableInv(s);
    assert Relies(T(s), s.procs[pid], s.now, j);
    forall q | q in s.procs ensures !Holds(s.procs[q], j) { HandledIsFree(s, pid, q, j); }
  }

  /** Only sweeps and repeated enqueues can hit a held job. */
  lemma {:induction false} HitsAreBlind(s: State, steps: seq<Step>, j: JobId)
    requires Run(s, steps) && j !in s.hit && j in End(s, steps).hit
    ensures exists i :: 0 <= i < |steps| &&
              ((steps[i].SweepWrite? && steps[i].item.id == j) || (steps[i].EnqueueJob? && steps[i].job == j))
    decreases |steps|
  {
    var first := steps[0];
    if j in After(s, first).hit {
      assert (first.SweepWrite? && first.item.id == j) || (first.EnqueueJob? && first.job == j);
    } else {
      HitsAreBlind(After(s, first), steps[1..], j);
      var i :| 0 <= i < |steps[1..]| && ((steps[1..][i].SweepWrite? && steps[1..][i].item.id == j)
                                         || (steps[1..][i].EnqueueJob? && steps[1..][i].job == j));
      assert steps[i + 1] == steps[1..][i];
    }
  }

  // ---------------------------------------------------------------------
  // What every write was read from
  // ---------------------------------------------------------------------

  /** The job is, in this version, a row of the log with this status, and with this
      worker's claim where one is named. */
  ghost predicate From(log: seq<Row>, job: Job, status: Status, worker: Option<string>) {
    exists r :: r in log && IsVersion(r, job, status, worker)
  }

  predicate IsVersion(r: Row, job: Job, status: Status, worker: Option<string>) {
    && r.job == job.id && r.created == job.version && r.payload == job.payload && r.status == status
    && (worker.Some? ==> r.claimedBy == worker.value)
    && (status == Processing ==> r.claimedAt.Some?)
  }

  ghost predicate AllFrom(log: seq<Row>, jobs: Jobs, status: Status, worker: Option<string>) {
    forall j :: j in jobs ==> From(log, jobs[j], status, worker)
  }

  /** What a process has in hand was pending when it was selected, and this worker's
      claim when it was read back, sent or confirmed. */
  ghost predicate ProcSourced(log: seq<Row>, p: Proc) {
    && AllFrom(log, p.held, Processing, Some(p.worker))
    && (p.phase.Section? ==> StageSourced(log, p.phase.stage, p.worker))
  }

  ghost predicate StageSourced(log: seq<Row>, stage: Stage, worker: string) {
    match stage
    case Entered => true
    case Releasing(orphans) => AllFrom(log, orphans, Processing, Some(worker))
    case Claiming(todo, sent) => AllFrom(log, todo, Pending, None) && AllFrom(log, sent, Processing, Some(worker))
    case Verified => true
  }

  ghost predicate Sourced(s: State) {
    && (forall p :: p in s.procs ==> ProcSourced(s.log, s.procs[p]))
    && (forall job :: job in s.swept ==> From(s.log, job, Processing, None))
  }

  lemma FromGrows(log: seq<Row>, row: Row, jobs: Jobs, status: Status, worker: Option<string>)
    requires AllFrom(log, jobs, status, worker)
    ensures AllFrom(log + [row], jobs, status, worker)
  {
    forall j | j in jobs ensures From(log + [row], jobs[j], status, worker) {
      var r :| r in log && IsVersion(r, jobs[j], status, worker);
      assert r in log + [row];
    }
  }

  lemma ProcSourcedGrows(log: seq<Row>, row: Row, p: Proc)
    requires ProcSourced(log, p)
    ensures ProcSourced(log + [row], p)
  {
    FromGrows(log, row, p.held, Processing, Some(p.worker));
    if p.phase.Section? {
      match p.phase.stage
      case Entered =>
      case Releasing(orphans) => FromGrows(log, row, orphans, Processing, Some(p.worker));
      case Claiming(todo, sent) =>
        FromGrows(log, row, todo, Pending, None);
        FromGrows(log, row, sent, Processing, Some(p.worker));
      case Verified =>
    }
  }

  /** One more row, and one process changed. */
  lemma SendKeepsSourced(s: State, row: Row, pid: Pid, p: Proc, after: State)
    requires Sourced(s) && ProcSourced(s.log + [row], p)
    requires after.log == s.log + [row] && after.procs == s.procs[pid := p] && after.swept == s.swept
    ensures Sourced(after)
  {
    forall q | q in s.procs ensures ProcSourced(after.log, s.procs[q]) { ProcSourcedGrows(s.log, row, s.procs[q]); }
    forall job | job in s.swept ensures From(after.log, job, Processing, None) { SweptFromGrows(s.log, row, job); }
  }

  lemma SweptFromGrows(log: seq<Row>, row: Row, job: Job)
    requires From(log, job, Processing, None)
    ensures From(log + [row], job, Processing, None)
  {
    var r :| r in log && IsVersion(r, job, Processing, None);
    assert r in log + [row];
  }

  lemma ReadIsFrom(s: State, j: JobId, status: Status, worker: Option<string>)
    requires j in T(s) && T(s)[j].latest.status == status && (worker.Some? ==> T(s)[j].latest.claimedBy == worker.value)
    requires Stamped(T(s))
    ensures From(s.log, JobOf(j, T(s)[j]), status, worker)
  {
    LatestIsArgMax(s.log, j);
    assert IsVersion(T(s)[j].latest, JobOf(j, T(s)[j]), status, worker);
  }

  lemma ReadOwnSourced(s: State, step: Step)
    requires Sourced(s) && Stamped(T(s)) && step.ReadOwn? && Enabled(s, step)
    ensures Sourced(After(s, step))
  {
    var p := s.procs[step.pid];
    forall j | j in step.orphans ensures From(s.log, step.orphans[j], Processing, Some(p.worker)) {
      ReadIsFrom(s, j, Processing, Some(p.worker));
    }
  }

  lemma SelectDueSourced(s: State, step: Step)
    requires Sourced(s) && Stamped(T(s)) && step.SelectDue? && Enabled(s, step)
    ensures Sourced(After(s, step))
  {
    forall j | j in step.todo ensures From(s.log, step.todo[j], Pending, None) { ReadIsFrom(s, j, Pending, None); }
  }

  lemma InsertSourced(s: State, step: Step)
    requires Sourced(s) && step.InsertOne? && Enabled(s, step)
    ensures Sourced(After(s, step))
  {
    var p := s.procs[step.pid];
    var claim := Claimed(p.phase.stage.todo[step.job], p.worker, step.clock);
    var row := ClaimRow(claim);
    ProcSourcedGrows(s.log, row, p);
    assert row in s.log + [row] && IsVersion(row, claim, Processing, Some(p.worker));
    SendKeepsSourced(s, row, step.pid, After(s, step).procs[step.pid], After(s, step));
  }

  lemma ReleaseSourced(s: State, step: Step)
    requires Sourced(s) && step.ReleaseOne? && Enabled(s, step)
    ensures Sourced(After(s, step))
  {
    var p := s.procs[step.pid];
    var row := ReleaseRow(p, step.job, step.clock, step.retryAfter);
    ProcSourcedGrows(s.log, row, p);
    SendKeepsSourced(s, row, step.pid, After(s, step).procs[step.pid], After(s, step));
  }

  lemma StatusSourced(s: State, step: Step)
    requires Sourced(s) && step.WriteStatus? && Enabled(s, step)
    ensures Sourced(After(s, step))
  {
    var p := s.procs[step.pid];
    if step.lands {
      var row := StatusRow(p.held[step.job], step.outcome, step.clock);
      ProcSourcedGrows(s.log, row, p);
      SendKeepsSourced(s, row, step.pid, After(s, step).procs[step.pid], After(s, step));
    }
  }

  lemma BlindSourced(s: State, row: Row)
    requires Sourced(s)
    ensures Sourced(SendBlindly(s, row))
  {
    forall q | q in s.procs ensures ProcSourced(s.log + [row], s.procs[q]) { ProcSourcedGrows(s.log, row, s.procs[q]); }
    forall job | job in s.swept ensures From(s.log + [row], job, Processing, None) { SweptFromGrows(s.log, row, job); }
  }

  lemma SweepReadSourced(s: State, step: Step)
    requires Sourced(s) && Stamped(T(s)) && step.SweepRead? && Enabled(s, step)
    ensures Sourced(After(s, step))
  {
    ReadIsFrom(s, step.job, Processing, None);
  }

  lemma WritingStepSourced(s: State, step: Step)
    requires Sourced(s) && Enabled(s, step)
    requires step.ReleaseOne? || step.InsertOne? || step.WriteStatus? || step.SweepWrite? || step.EnqueueJob?
    ensures Sourced(After(s, step))
  {
    match step
    case ReleaseOne(_, _, _, _) => ReleaseSourced(s, step);
    case InsertOne(_, _, _) => InsertSourced(s, step);
    case WriteStatus(_, _, _, _, _) => StatusSourced(s, step);
    case SweepWrite(item, clock, retryAfter) => BlindSourced(s, DeferRow(item, clock, retryAfter, SweepMessage));
    case EnqueueJob(j, payload, created, retryAfter) => BlindSourced(s, EnqueueRow(j, payload, created, retryAfter));
  }

  lemma StepKeepsSourced(s: State, step: Step)
    requires Sourced(s) && Stamped(T(s)) && Enabled(s, step)
    ensures Sourced(After(s, step))
  {
    if step.ReadOwn? {
      ReadOwnSourced(s, step);
    } else if step.SelectDue? {
      SelectDueSourced(s, step);
    } else if step.SweepRead? {
      SweepReadSourced(s, step);
    } else if step.ReleaseOne? || step.InsertOne? || step.WriteStatus? || step.SweepWrite? || step.EnqueueJob? {
      WritingStepSourced(s, step);
    } else if step.Verify? || step.Accept? || step.Discard? || step.Acquire? {
      QuietSourced(s, step);
    } else {
      EasySourced(s, step);
    }
  }

  lemma QuietSourced(s: State, step: Step)
    requires Sourced(s) && Enabled(s, step) && (step.Verify? || step.Accept? || step.Discard? || step.Acquire?)
    ensures Sourced(After(s, step))
  {
    assert ProcSourced(s.log, s.procs[step.pid]);
  }

  lemma EasySourced(s: State, step: Step)
    requires Sourced(s) && Enabled(s, step)
    requires step.Tick? || step.Start? || step.Crash? || step.Begin? || step.GiveUp? || step.Forget?
    ensures Sourced(After(s, step))
  {
  }

  lemma {:induction false} RunKeepsSourced(s: State, steps: seq<Step>)
    requires Inv(s) && Sourced(s) && Run(s, steps)
    ensures Sourced(End(s, steps))
    decreases |steps|
  {
    if steps != [] {
      StepKeepsSourced(s, steps[0]);
      StepKeeps(s, steps[0]);
      RunKeepsSourced(After(s, steps[0]), steps[1..]);
    }
  }

  /** Whatever is put back or concluded was a claim when it was read, the worker's
      own where a worker writes, and whatever is claimed was pending: no finished
      job is ever read to be swept, released or claimed. */
  lemma WritesFollowTheirReads(s: State, step: Step)
    requires Reachable(s) && Enabled(s, step)
    ensures step.SweepWrite? ==> From(s.log, step.item, Processing, None)
    ensures step.ReleaseOne? ==>
              From(s.log, s.procs[step.pid].phase.stage.orphans[step.job], Processing, Some(s.procs[step.pid].worker))
    ensures step.InsertOne? ==> From(s.log, s.procs[step.pid].phase.stage.todo[step.job], Pending, None)
    ensures step.WriteStatus? ==> From(s.log, s.procs[step.pid].held[step.job], Processing, Some(s.procs[step.pid].worker))
  {
    ReachableSourced(s);
    SourcedReads(s, step);
  }

  lemma ReachableSourced(s: State)
    requires Reachable(s)
    ensures Sourced(s)
  {
    var steps :| Run(Initial, steps) && End(Initial, steps) == s;
    RunKeepsSourced(Initial, steps);
  }

  lemma SourcedReads(s: State, step: Step)
    requires Sourced(s) && Enabled(s, step)
    ensures step.ReleaseOne? ==>
              From(s.log, s.procs[step.pid].phase.stage.orphans[step.job], Processing, Some(s.procs[step.pid].worker))
    ensures step.InsertOne? ==> From(s.log, s.procs[step.pid].phase.stage.todo[step.job], Pending, None)
    ensures step.WriteStatus? ==> From(s.log, s.procs[step.pid].held[step.job], Processing, Some(s.procs[step.pid].worker))
    ensures step.SweepWrite? ==> From(s.log, step.item, Processing, None)
  {
    if step.ReleaseOne? || step.InsertOne? || step.WriteStatus? { assert ProcSourced(s.log, s.procs[step.pid]); }
  }

  /** What the three queries read, in the columns of the rows. */
  lemma QueriesRead(s: State, step: Step)
    requires Enabled(s, step)
    ensures step.SweepRead? ==>
              && step.job in T(s) && T(s)[step.job].latest.status == Processing
              && T(s)[step.job].latest.claimedAt.Some? && T(s)[step.job].latest.claimedAt.value + 3600 < step.sqlNow / 1000
    ensures step.ReadOwn? ==>
              && |step.orphans| <= 10000
              && (forall j :: j in step.orphans ==>
                    && j in T(s) && T(s)[j].latest.status == Processing
                    && T(s)[j].latest.claimedBy == s.procs[step.pid].worker && step.orphans[j].version == T(s)[j].latest.created)
              && (|step.orphans| < 10000 ==>
                    forall j :: j in T(s) && T(s)[j].latest.status == Processing && T(s)[j].latest.claimedBy == s.procs[step.pid].worker
                      ==> j in step.orphans)
    ensures step.SelectDue? ==>
              forall j :: j in step.todo ==>
                && j in T(s) && T(s)[j].latest.status == Pending && T(s)[j].latest.retryAfter <= step.sqlNow / 1000
                && step.todo[j].version == T(s)[j].latest.created
  {
  }

  /** A live holder's conclusion takes effect whatever the clock says, and leaves
      exactly the row of its outcome. */
  lemma ConclusionLands(s: State, pid: Pid, j: JobId, outcome: Outcome, clock: int)
    requires Reachable(s) && pid in s.procs && Holds(s.procs[pid], j) && s.procs[pid].phase.Executing? && j !in s.hit
    ensures var step := WriteStatus(pid, j, outcome, clock, true);
            && Enabled(s, step) && j in T(s) && j in T(After(s, step))
            && var was, now := T(s)[j].latest, T(After(s, step))[j].latest;
               && now.created == (if clock > was.created then clock else was.created + 1)
               && now.job == j && now.payload == was.payload
               && match outcome
                  case Completed => now.status == Done && now.claimedBy == s.procs[pid].held[j].claimedBy && now.errorMessage == ""
                  case FailedWith(message) => now.status == Failed && now.errorMessage == message
                  case DeferredUntil(until, reason) =>
                    now.status == Pending && now.claimedBy == "" && now.retryAfter == until / 1000 && now.errorMessage == reason
  {
    var step := WriteStatus(pid, j, outcome, clock, true);
    HolderOwnsLatestRow(s, pid, j);
    ReachableInv(s);
    assert ProcCarries(T(s), s.procs[pid]);
    SentIsSent(s, step);
  }

  // ---------------------------------------------------------------------
  // What becomes of a job
  // ---------------------------------------------------------------------

  predicate Finished(t: Table, j: JobId) {
    j in t && (t[j].latest.status == Done || t[j].latest.status == Failed)
  }

  predicate PutsBackBlindly(step: Step, j: JobId) {
    (step.SweepWrite? && step.item.id == j) || (step.EnqueueJob? && step.job == j)
  }

  /** The row a step sends, if it sends one. */
  function Sent(s: State, step: Step): Option<Row>
    requires Enabled(s, step)
  {
    match step
    case ReleaseOne(pid, j, clock, retryAfter) =>
      Some(ReleaseRow(s.procs[pid], j, clock, retryAfter))
    case InsertOne(pid, j, clock) => Some(InsertRow(s.procs[pid], j, clock))
    case WriteStatus(pid, j, outcome, clock, lands) =>
      if lands then Some(StatusRow(s.procs[pid].held[j], outcome, clock)) else None
    case SweepWrite(item, clock, retryAfter) => Some(DeferRow(item, clock, retryAfter, SweepMessage))
    case EnqueueJob(j, payload, created, retryAfter) => Some(EnqueueRow(j, payload, created, retryAfter))
    case _ => None
  }

  lemma SentIsSent(s: State, step: Step)
    requires Enabled(s, step)
    ensures T(After(s, step)) == if Sent(s, step).Some? then Apply(T(s), Sent(s, step).value) else T(s)
  {
    if Sent(s, step).Some? { LatestAppend(s.log, Sent(s, step).value); }
  }

  /** The job some process or sweep had read, and now writes a row of. */
  function Subject(s: State, step: Step): Option<Job>
    requires Enabled(s, step)
  {
    match step
    case ReleaseOne(pid, j, _, _) => Some(s.procs[pid].phase.stage.orphans[j])
    case InsertOne(pid, j, _) => Some(s.procs[pid].phase.stage.todo[j])
    case WriteStatus(pid, j, _, _, _) => Some(s.procs[pid].held[j])
    case SweepWrite(item, _, _) => Some(item)
    case _ => None
  }

  lemma SubjectCarries(s: State, step: Step)
    requires Inv(s) && Enabled(s, step) && Subject(s, step).Some?
    ensures Carries(T(s), Subject(s, step).value, Subject(s, step).value.id)
  {
    if step.ReleaseOne? || step.InsertOne? || step.WriteStatus? { assert ProcCarries(T(s), s.procs[step.pid]); }
  }

  /** A sent row agrees with what its job is and comes after its first row, and
      only an enqueue brings a new job. */
  lemma SentFits(s: State, step: Step)
    requires Inv(s) && Enabled(s, step) && Sent(s, step).Some?
    ensures var row := Sent(s, step).value;
            && Fits(T(s), row)
            && (!step.EnqueueJob? ==> row.job in T(s) && T(s)[row.job].first < row.created)
  {
    if Subject(s, step).Some? { SubjectCarries(s, step); }
  }

  lemma FinishedIsUntouched(s: State, q: Pid, j: JobId)
    requires Inv(s) && q in s.procs && j !in s.hit && Finished(T(s), j)
    ensures !Holds(s.procs[q], j) && !Handles(s.procs[q], s.now, j)
  {
    assert Relies(T(s), s.procs[q], s.now, j);
  }

  /** A section or an executing process writes only jobs it handles or holds. */
  lemma SubjectHandled(s: State, step: Step)
    requires Inv(s) && Enabled(s, step) && Subject(s, step).Some?
    ensures Sent(s, step).Some? ==> Sent(s, step).value.job == Subject(s, step).value.id
    ensures !step.SweepWrite? ==>
              step.pid in s.procs && (Holds(s.procs[step.pid], Subject(s, step).value.id) || Handles(s.procs[step.pid], s.now, Subject(s, step).value.id))
  {
    SubjectCarries(s, step);
    if !step.SweepWrite? { assert ProcCarries(T(s), s.procs[step.pid]); }
  }

  /** The step puts the job back by a row that becomes its latest. */
  predicate PutsBack(s: State, step: Step, j: JobId)
    requires Enabled(s, step)
  {
    PutsBackBlindly(step, j) && Supersedes(T(s), Sent(s, step).value)
  }

  lemma OthersSpareFinished(s: State, step: Step, j: JobId)
    requires Inv(s) && Enabled(s, step) && j !in s.hit && Finished(T(s), j) && !PutsBackBlindly(step, j)
    ensures Sent(s, step).Some? ==> Sent(s, step).value.job != j
  {
    if Subject(s, step).Some? {
      SubjectHandled(s, step);
      if !step.SweepWrite? { FinishedIsUntouched(s, step.pid, j); }
    }
  }

  lemma BlindRowIsPending(s: State, step: Step, j: JobId)
    requires Inv(s) && Enabled(s, step) && PutsBackBlindly(step, j)
    ensures Sent(s, step).Some? && Sent(s, step).value.job == j && Sent(s, step).value.status == Pending
  {
    if step.SweepWrite? { SubjectCarries(s, step); }
  }

  /** A finished job keeps its row through a step if and only if the step is no
      sweep or enqueue of that job with a row above the finished one; such a step
      makes it pending again. */
  lemma FinishedIsFinal(s: State, step: Step, j: JobId)
    requires Reachable(s) && Enabled(s, step) && j !in s.hit && Finished(T(s), j)
    ensures j in T(After(s, step))
    ensures T(After(s, step))[j].latest == T(s)[j].latest <==> !PutsBack(s, step, j)
    ensures PutsBack(s, step, j) ==> T(After(s, step))[j].latest.status == Pending
  {
    ReachableInv(s);
    SentIsSent(s, step);
    if PutsBackBlindly(step, j) { BlindRowIsPending(s, step, j); } else { OthersSpareFinished(s, step, j); }
    if Sent(s, step).Some? { RowSpares(T(s), Sent(s, step).value, j); }
  }

  lemma RowSpares(t: Table, row: Row, j: JobId)
    requires j in t
    ensures j in Apply(t, row)
    ensures Apply(t, row)[j].latest == t[j].latest || (row.job == j && Supersedes(t, row) && Apply(t, row)[j].latest == row)
    ensures row.job == j && Supersedes(t, row) ==> Apply(t, row)[j].latest == row != t[j].latest
  {
  }

  /** No step loses a job, changes what it is, or, short of a second enqueue,
      its place in the claim order; no latest version ever goes back. */
  lemma StepConserves(s: State, step: Step, j: JobId)
    requires Inv(s) && Enabled(s, step) && j in T(s)
    ensures j in T(After(s, step))
    ensures T(After(s, step))[j].latest.payload == T(s)[j].latest.payload
    ensures T(After(s, step))[j].latest.created >= T(s)[j].latest.created
    ensures !(step.EnqueueJob? && step.job == j) ==> T(After(s, step))[j].first == T(s)[j].first
  {
    SentIsSent(s, step);
    LatestOrdered(s.log);
    if Sent(s, step).Some? { SentFits(s, step); }
  }

  lemma {:induction false} RunConserves(s: State, steps: seq<Step>, j: JobId)
    requires Inv(s) && Run(s, steps) && j in T(s)
    ensures j in T(End(s, steps))
    ensures T(End(s, steps))[j].latest.payload == T(s)[j].latest.payload
    ensures T(End(s, steps))[j].latest.created >= T(s)[j].latest.created
    ensures (forall i :: 0 <= i < |steps| ==> !(steps[i].EnqueueJob? && steps[i].job == j)) ==>
              T(End(s, steps))[j].first == T(s)[j].first
    decreases |steps|
  {
    if steps != [] {
      StepConserves(s, steps[0], j);
      StepKeeps(s, steps[0]);
      RunConserves(After(s, steps[0]), steps[1..], j);
      assert forall i :: 0 <= i < |steps[1..]| ==> steps[1..][i] == steps[i + 1];
    }
  }

  /** The claims that have gone stale by the server's clock. */
  function StaleClaims(t: Table, sqlNow: int): set<JobId> {
    set j | j in t && StaleClaim(t[j], sqlNow)
  }

  /** A sweep reads the job and puts it back: nothing else of the table changes,
      nor any process, and no holder is hit. */
  ghost predicate SweepPutsBack(s: State, j: JobId, sqlNow: int, clock: int, retryAfter: int) {
    && j in T(s) && Enabled(s, SweepRead(j, sqlNow))
    && var item, read := JobOf(j, T(s)[j]), After(s, SweepRead(j, sqlNow));
       && Enabled(read, SweepWrite(item, clock, retryAfter))
       && var e := After(read, SweepWrite(item, clock, retryAfter));
          && T(e) == T(s)[j := Entry(T(s)[j].first, DeferRow(item, clock, retryAfter, SweepMessage))]
          && e.hit == s.hit && e.procs == s.procs
  }

  /** Every sweep puts the job back that runs over an hour after its claim, whatever
      the clock says when it writes; a sweep takes so many jobs and no more. */
  ghost predicate Recoverable(s: State, j: JobId) {
    && j in T(s) && T(s)[j].latest.claimedAt.Some?
    && forall sqlNow, clock, retryAfter ::
         T(s)[j].latest.claimedAt.value + StaleAfter < Seconds(sqlNow) && |StaleClaims(T(s), sqlNow)| <= SweepLimit ==>
           SweepPutsBack(s, j, sqlNow, clock, retryAfter)
  }

  lemma TwoSteps(s: State, a: Step, b: Step)
    requires Enabled(s, a) && Enabled(After(s, a), b)
    ensures Run(s, [a, b]) && End(s, [a, b]) == After(After(s, a), b)
  {
    var u := After(s, a);
    assert [a, b][1..] == [b] && [b][1..] == [];
    assert Run(After(u, b), []);
    assert Run(u, [b]);
    assert End(u, [b]) == End(After(u, b), []);
  }

  lemma SweepPutsItBack(s: State, j: JobId, sqlNow: int, clock: int, retryAfter: int)
    requires Inv(s) && j in T(s) && StaleClaim(T(s)[j], sqlNow) && !LiveHolder(s, j)
    ensures SweepPutsBack(s, j, sqlNow, clock, retryAfter)
  {
    LatestOrdered(s.log);
    LatestAppend(s.log, DeferRow(JobOf(j, T(s)[j]), clock, retryAfter, SweepMessage));
    var u := After(s, SweepRead(j, sqlNow));
    assert T(u) == T(s) && u.hit == s.hit && !LiveHolder(u, j);
  }

  /** Whatever happened to its worker, a job left processing that no live process
      holds is put back by every sweep late enough. */
  lemma SweepRecovers(s: State, j: JobId)
    requires Reachable(s) && j in T(s) && T(s)[j].latest.status == Processing && !LiveHolder(s, j)
    ensures Recoverable(s, j)
  {
    ReachableInv(s);
    assert Stamped(T(s));
    forall sqlNow, clock, retryAfter | T(s)[j].latest.claimedAt.value + StaleAfter < Seconds(sqlNow)
      ensures SweepPutsBack(s, j, sqlNow, clock, retryAfter)
    {
      SweepPutsItBack(s, j, sqlNow, clock, retryAfter);
    }
  }

  lemma {:induction false} RunsCompose(s: State, a: seq<Step>, b: seq<Step>)
    requires Run(s, a) && Run(End(s, a), b)
    ensures Run(s, a + b) && End(s, a + b) == End(End(s, a), b)
    decreases |a|
  {
    if a == [] {
      assert a + b == b;
    } else {
      RunsCompose(After(s, a[0]), a[1..], b);
      assert (a + b)[0] == a[0] && (a + b)[1..] == a[1..] + b;
    }
  }

  lemma RunReachable(s: State, steps: seq<Step>)
    requires Reachable(s) && Run(s, steps)
    ensures Reachable(End(s, steps))
  {
    var before :| Run(Initial, before) && End(Initial, before) == s;
    RunsCompose(Initial, before, steps);
  }

  lemma Then(s: State, steps: seq<Step>, step: Step)
    requires Run(s, steps) && Enabled(End(s, steps), step)
    ensures Run(s, steps + [step]) && End(s, steps + [step]) == After(End(s, steps), step)
  {
    var u := End(s, steps);
    assert [step][1..] == [];
    assert Run(After(u, step), []);
    assert Run(u, [step]);
    RunsCompose(s, steps, [step]);
  }

  function LeaseExpiry(s: State): int {
    if s.lease.Some? && s.lease.value.acquired + RenewDeadline > s.now then s.lease.value.acquired + RenewDeadline else s.now
  }

  /** A live worker without a job begins a poll and acquires the lease. */
  lemma PollAcquires(s: State, pid: Pid, now: int) returns (steps: seq<Step>)
    requires pid in s.procs && s.procs[pid].alive && s.procs[pid].held == map[] && now == LeaseExpiry(s)
    requires s.procs[pid].phase.Idle? || s.procs[pid].phase.Executing?
    ensures Run(s, steps) && steps == [Tick(now), Begin(pid), Acquire(pid)]
    ensures End(s, steps) == s.(now := now, procs := s.procs[pid := s.procs[pid].(phase := Section(now, now, Entered))], lease := Some(Lease(pid, now)))
  {
    TwoSteps(s, Tick(now), Begin(pid));
    var u := End(s, [Tick(now), Begin(pid)]);
    assert u == s.(now := now, procs := s.procs[pid := s.procs[pid].(phase := Waiting(now))]);
    Then(s, [Tick(now), Begin(pid)], Acquire(pid));
    steps := [Tick(now), Begin(pid)] + [Acquire(pid)];
  }

  /** Where a live worker's next poll stands once it has read its own claims. */
  lemma PollReadsOwnClaims(s: State, pid: Pid) returns (steps: seq<Step>)
    requires Inv(s) && pid in s.procs && s.procs[pid].alive && s.procs[pid].held == map[]
    requires s.procs[pid].phase.Idle? || s.procs[pid].phase.Executing?
    requires |OwnClaims(T(s), s.procs[pid].worker)| <= SweepLimit
    ensures Run(s, steps)
    ensures steps == [Tick(LeaseExpiry(s)), Begin(pid), Acquire(pid), ReadOwn(pid, OwnClaims(T(s), s.procs[pid].worker))]
    ensures var e, now := End(s, steps), LeaseExpiry(s);
            && e.now == now && e.log == s.log && e.hit == s.hit && e.lease == Some(Lease(pid, now))
            && e.procs == s.procs[pid := s.procs[pid].(
                 phase := Section(now, now, Releasing(OwnClaims(T(s), s.procs[pid].worker))))]
  {
    var now, own := LeaseExpiry(s), OwnClaims(T(s), s.procs[pid].worker);
    steps := PollAcquires(s, pid, now);
    Then(s, steps, ReadOwn(pid, own));
    steps := steps + [ReadOwn(pid, own)];
  }

  /** The poll of a worker, up to its releasing job j. */
  function PollSteps(s: State, pid: Pid, j: JobId, clock: int, retryAfter: int): seq<Step>
    requires pid in s.procs
  {
    [Tick(LeaseExpiry(s)), Begin(pid), Acquire(pid), ReadOwn(pid, OwnClaims(T(s), s.procs[pid].worker)),
     ReleaseOne(pid, j, clock, retryAfter)]
  }

  /** A live worker between two polls holds nothing, but the table says j is its own. */
  predicate BetweenPolls(s: State, pid: Pid, j: JobId) {
    && pid in s.procs && s.procs[pid].alive && s.procs[pid].held == map[]
    && (s.procs[pid].phase.Idle? || s.procs[pid].phase.Executing?)
    && j in OwnClaims(T(s), s.procs[pid].worker) && |OwnClaims(T(s), s.procs[pid].worker)| <= SweepLimit
  }

  /** Its next poll, once the lease has run out, puts the job back, whatever the
      clock says when it writes. */
  ghost predicate OwnerPutsBack(s: State, pid: Pid, j: JobId)
    requires pid in s.procs && j in T(s)
  {
    forall clock, retryAfter :: PollPutsBack(s, pid, j, clock, retryAfter)
  }

  ghost predicate PollPutsBack(s: State, pid: Pid, j: JobId, clock: int, retryAfter: int)
    requires pid in s.procs && j in T(s)
  {
    var steps := PollSteps(s, pid, j, clock, retryAfter);
    && Run(s, steps) && End(s, steps).hit == s.hit
    && T(End(s, steps)) == T(s)[j := Entry(T(s)[j].first, DeferRow(JobOf(j, T(s)[j]), clock, retryAfter,
                                             "requeued: claim abandoned by " + s.procs[pid].worker))]
  }

  lemma OwnerPollPutsBack(s: State, pid: Pid, j: JobId, clock: int, retryAfter: int)
    requires Inv(s) && BetweenPolls(s, pid, j)
    ensures j in T(s) && PollPutsBack(s, pid, j, clock, retryAfter)
  {
    LatestOrdered(s.log);
    var steps := PollReadsOwnClaims(s, pid);
    var last := ReleaseOne(pid, j, clock, retryAfter);
    Then(s, steps, last);
    assert steps + [last] == PollSteps(s, pid, j, clock, retryAfter);
    LatestAppend(s.log, DeferRow(JobOf(j, T(s)[j]), clock, retryAfter, "requeued: claim abandoned by " + s.procs[pid].worker));
  }

  /** A live worker that no longer holds a job still marked as its own puts it
      back in its next poll. */
  lemma OwnerRecovers(s: State, pid: Pid, j: JobId)
    requires Reachable(s) && BetweenPolls(s, pid, j)
    ensures j in T(s) && OwnerPutsBack(s, pid, j)
  {
    ReachableInv(s);
    forall clock, retryAfter ensures PollPutsBack(s, pid, j, clock, retryAfter) {
      OwnerPollPutsBack(s, pid, j, clock, retryAfter);
    }
  }

  /** Every job ever enqueued keeps its payload and is finished, pending or held by
      a live process; or it is a claim that nobody holds, and then every sweep late
      enough puts it back, and so does the next poll of the worker it is marked for. */
  lemma NoJobLost(s: State, steps: seq<Step>, j: JobId)
    requires Reachable(s) && Run(s, steps) && j in T(s)
    ensures j in T(End(s, steps)) && T(End(s, steps))[j].latest.payload == T(s)[j].latest.payload
    ensures var e := End(s, steps);
            || Finished(T(e), j) || T(e)[j].latest.status == Pending || LiveHolder(e, j)
            || (T(e)[j].latest.status == Processing && Recoverable(e, j)
                && forall pid :: BetweenPolls(e, pid, j) ==> OwnerPutsBack(e, pid, j))
  {
    ReachableInv(s);
    RunConserves(s, steps, j);
    var e := End(s, steps);
    RunReachable(s, steps);
    if T(e)[j].latest.status == Processing && !LiveHolder(e, j) {
      SweepRecovers(e, j);
      forall pid | BetweenPolls(e, pid, j) ensures OwnerPutsBack(e, pid, j) { OwnerRecovers(e, pid, j); }
    }
  }

  // ---------------------------------------------------------------------
  // What a sweep or a second enqueue of a held job does
  // ---------------------------------------------------------------------

  lemma ClaimTakes(t: Table, j: JobId, worker: string, clock: int)
    requires j in t && Ordered(t)
    ensures var u := Apply(t, ClaimRow(Claimed(JobOf(j, t[j]), worker, clock))); j in u && OwnClaim(u[j], worker)
  {
  }

  /** A section selects one due job and writes its claim. */
  lemma SelectAndInsert(s: State, pid: Pid, j: JobId, clock: int) returns (steps: seq<Step>)
    requires pid in s.procs && s.procs[pid].alive && Active(s.procs[pid], s.now)
    requires s.procs[pid].phase.stage == Releasing(map[])
    requires j in T(s) && PendingAndDue(T(s)[j], clock) && Ordered(T(s))
    ensures Run(s, steps)
    ensures var e, claim := End(s, steps), Claimed(JobOf(j, T(s)[j]), s.procs[pid].worker, clock);
            && e.procs == s.procs[pid := s.procs[pid].(phase := s.procs[pid].phase.(stage := Claiming(map[], map[j := claim])))]
            && e.now == s.now && e.hit == s.hit && e.lease == s.lease && j in T(e) && OwnClaim(T(e)[j], s.procs[pid].worker)
  {
    var job := JobOf(j, T(s)[j]);
    var claim := Claimed(job, s.procs[pid].worker, clock);
    var a, b := SelectDue(pid, map[j := job], clock), InsertOne(pid, j, clock);
    var u := After(s, a);
    assert u == WithStage(s, pid, Claiming(map[j := job], map[]));
    assert map[j := job] - {j} == map[];
    assert After(u, b) == Send(WithStage(s, pid, Claiming(map[], map[j := claim])), ClaimRow(claim));
    TwoSteps(s, a, b);
    steps := [a, b];
    LatestAppend(s.log, ClaimRow(claim));
    ClaimTakes(T(s), j, s.procs[pid].worker, clock);
  }

  /** A section whose one claim the table confirms is accepted. */
  lemma VerifyAndAccept(s: State, pid: Pid, j: JobId, claim: Job) returns (steps: seq<Step>)
    requires pid in s.procs && s.procs[pid].alive && Active(s.procs[pid], s.now)
    requires s.procs[pid].phase.stage == Claiming(map[], map[j := claim])
    requires j in T(s) && OwnClaim(T(s)[j], s.procs[pid].worker)
    ensures Run(s, steps)
    ensures End(s, steps).procs == s.procs[pid := s.procs[pid].(phase := Executing, held := map[j := claim])]
    ensures End(s, steps).hit == s.hit
    ensures End(s, steps).lease == if s.lease.Some? && s.lease.value.holder == pid then None else s.lease
  {
    assert ConfirmedJobs(T(s), s.procs[pid].worker, map[j := claim]) == map[j := claim];
    TwoSteps(s, Verify(pid), Accept(pid, true));
    steps := [Verify(pid), Accept(pid, true)];
  }

  /** An idle worker with nothing of its own in the table claims a due job: the
      whole poll, from the lease to the accepted section. */
  lemma IdleWorkerClaims(s: State, pid: Pid, j: JobId, clock: int) returns (steps: seq<Step>)
    requires Inv(s) && pid in s.procs && s.procs[pid].alive && s.procs[pid].held == map[] && s.procs[pid].phase.Idle?
    requires OwnClaims(T(s), s.procs[pid].worker) == map[]
    requires j in T(s) && PendingAndDue(T(s)[j], clock)
    ensures Run(s, steps) && End(s, steps).hit == s.hit && End(s, steps).lease == None
    ensures End(s, steps).procs == s.procs[pid := s.procs[pid].(
              phase := Executing, held := map[j := Claimed(JobOf(j, T(s)[j]), s.procs[pid].worker, clock)])]
  {
    LatestOrdered(s.log);
    var read := PollReadsOwnClaims(s, pid);
    var u := End(s, read);
    var claim := SelectAndInsert(u, pid, j, clock);
    RunsCompose(s, read, claim);
    var v := End(u, claim);
    var accept := VerifyAndAccept(v, pid, j, Claimed(JobOf(j, T(s)[j]), s.procs[pid].worker, clock));
    RunsCompose(s, read + claim, accept);
    steps := (read + claim) + accept;
  }

  /** One worker starts and one job is enqueued. */
  lemma FirstJob(worker: string, j: JobId, payload: Payload) returns (steps: seq<Step>)
    ensures Run(Initial, steps)
    ensures var u := End(Initial, steps);
            && u.log == [EnqueueRow(j, payload, 0, 0)] && T(u) == map[j := Entry(0, EnqueueRow(j, payload, 0, 0))]
            && u.procs == map[0 := Proc(worker, true, Idle, map[])] && u.hit == {}
  {
    TwoSteps(Initial, Start(0, worker), EnqueueJob(j, payload, 0, 0));
    steps := [Start(0, worker), EnqueueJob(j, payload, 0, 0)];
    LatestAppend([], EnqueueRow(j, payload, 0, 0));
  }

  /** Jobs do get claimed: from the start, an enqueued job reaches a live worker
      that executes it. */
  lemma ClaimHappens(worker: string, j: JobId, payload: Payload) returns (s: State)
    ensures Reachable(s) && 0 in s.procs && Holds(s.procs[0], j) && s.procs[0].phase.Executing? && j !in s.hit
    ensures s.procs[0].worker == worker && s.procs[0].held[j].payload == payload
  {
    var first := FirstJob(worker, j, payload);
    var u := End(Initial, first);
    assert OwnClaims(T(u), worker) == map[];
    RunKeeps(Initial, first);
    var rest := IdleWorkerClaims(u, 0, j, 0);
    RunsCompose(Initial, first, rest);
    s := End(u, rest);
  }

  /** Some continuation has a second live process execute the job. */
  ghost predicate TwoHolders(s: State, p: Pid, q: Pid, j: JobId) {
    exists more :: Run(s, more) && p in End(s, more).procs && q in End(s, more).procs
      && Holds(End(s, more).procs[p], j) && Holds(End(s, more).procs[q], j) && End(s, more).procs[q].phase.Executing?
  }

  lemma NoOwnClaimsAfterBlind(s: State, step: Step, worker: string)
    requires Enabled(s, step) && (step.SweepWrite? || step.EnqueueJob?) && OwnClaims(T(s), worker) == map[]
    ensures OwnClaims(T(After(s, step)), worker) == map[]
  {
    SentIsSent(s, step);
    forall id | id in T(After(s, step)) ensures !OwnClaim(T(After(s, step))[id], worker) {
      if id in T(s) { assert id !in OwnClaims(T(s), worker); }
    }
  }

  /** A step that hits a job has put it back to pending. */
  lemma HitIsPutBack(s: State, step: Step, j: JobId)
    requires Inv(s) && Enabled(s, step) && j !in s.hit && j in After(s, step).hit
    ensures step.SweepWrite? || step.EnqueueJob?
    ensures After(s, step).procs == s.procs
    ensures j in T(After(s, step)) && T(After(s, step))[j].latest.status == Pending
  {
    SentIsSent(s, step);
    if Subject(s, step).Some? { SubjectCarries(s, step); }
    assert Sent(s, step).value.job == j;
  }

  /** The condition on exclusion is exact: wherever a step hits a job, any other
      idle worker can go on to claim it while the first still holds it. */
  lemma HitBreaksExclusion(s: State, step: Step, p: Pid, q: Pid, j: JobId)
    requires Reachable(s) && Enabled(s, step) && j !in s.hit && j in After(s, step).hit
    requires p in s.procs && Holds(s.procs[p], j)
    requires q in s.procs && q != p && s.procs[q].alive && s.procs[q].held == map[] && s.procs[q].phase.Idle?
    requires OwnClaims(T(s), s.procs[q].worker) == map[]
    ensures TwoHolders(After(s, step), p, q, j)
  {
    ReachableInv(s);
    StepKeeps(s, step);
    HitIsPutBack(s, step, j);
    NoOwnClaimsAfterBlind(s, step, s.procs[q].worker);
    IdleWorkerClaimsToo(After(s, step), p, q, j);
  }

  lemma IdleWorkerClaimsToo(s: State, p: Pid, q: Pid, j: JobId)
    requires Inv(s) && p in s.procs && Holds(s.procs[p], j) && j in T(s) && T(s)[j].latest.status == Pending
    requires q in s.procs && q != p && s.procs[q].alive && s.procs[q].held == map[] && s.procs[q].phase.Idle?
    requires OwnClaims(T(s), s.procs[q].worker) == map[]
    ensures TwoHolders(s, p, q, j)
  {
    var clock := T(s)[j].latest.retryAfter * 1000;
    assert PendingAndDue(T(s)[j], clock);
    var more := IdleWorkerClaims(s, q, j, clock);
    assert Run(s, more);
  }

  lemma LiveHolderKnown(s: State, p: Pid, j: JobId)
    requires Reachable(s) && p in s.procs && Holds(s.procs[p], j)
    ensures LiveHolder(s, j) && j in T(s)
  {
    ReachableInv(s);
    assert ProcCarries(T(s), s.procs[p]);
  }

  /** A worker that executes a job for over an hour is swept, and another worker
      can claim the job beside it. */
  lemma SweepBreaksExclusion(s: State, p: Pid, q: Pid, j: JobId, sqlNow: int, clock: int, retryAfter: int)
    requires Reachable(s) && p in s.procs && Holds(s.procs[p], j) && j !in s.hit
    requires j in T(s) && T(s)[j].latest.claimedAt.Some? && T(s)[j].latest.claimedAt.value + StaleAfter < Seconds(sqlNow)
    requires q in s.procs && q != p && s.procs[q].alive && s.procs[q].held == map[] && s.procs[q].phase.Idle?
    requires OwnClaims(T(s), s.procs[q].worker) == map[]
    ensures var read, write := SweepRead(j, sqlNow), SweepWrite(JobOf(j, T(s)[j]), clock, retryAfter);
            && Enabled(s, read) && Enabled(After(s, read), write)
            && TwoHolders(After(After(s, read), write), p, q, j)
  {
    HolderOwnsLatestRow(s, p, j);
    var read, write := SweepRead(j, sqlNow), SweepWrite(JobOf(j, T(s)[j]), clock, retryAfter);
    var u := After(s, read);
    assert Run(u, []) && Run(s, [read]) && End(s, [read]) == u by { assert [read][1..] == []; }
    RunReachable(s, [read]);
    LiveHolderKnown(u, p, j);
    HitBreaksExclusion(u, write, p, q, j);
  }

  /** So is a job that is enqueued again with a created_at above its claim's. */
  lemma SecondEnqueueBreaksExclusion(s: State, p: Pid, q: Pid, j: JobId, created: int, retryAfter: int)
    requires Reachable(s) && p in s.procs && Holds(s.procs[p], j) && j !in s.hit && j in T(s) && created > T(s)[j].latest.created
    requires q in s.procs && q != p && s.procs[q].alive && s.procs[q].held == map[] && s.procs[q].phase.Idle?
    requires OwnClaims(T(s), s.procs[q].worker) == map[]
    ensures var again := EnqueueJob(j, T(s)[j].latest.payload, created, retryAfter);
            Enabled(s, again) && TwoHolders(After(s, again), p, q, j)
  {
    LiveHolderKnown(s, p, j);
    HitBreaksExclusion(s, EnqueueJob(j, T(s)[j].latest.payload, created, retryAfter), p, q, j);
  }

  // ---------------------------------------------------------------------
  // What a sweep that read a claim does to a job finished meanwhile
  // ---------------------------------------------------------------------

  /** A sweep reads a claim over an hour old, its worker completes the job, and the
      sweep writes what it read. */
  function LateSweep(s: State, p: Pid, j: JobId, sqlNow: int, doneClock: int, sweepClock: int, retryAfter: int): seq<Step>
    requires j in T(s)
  {
    [SweepRead(j, sqlNow), WriteStatus(p, j, Completed, doneClock, true), SweepWrite(JobOf(j, T(s)[j]), sweepClock, retryAfter)]
  }

  lemma CompletesAfterRead(s: State, p: Pid, j: JobId, sqlNow: int, doneClock: int) returns (u: State)
    requires Inv(s) && p in s.procs && Holds(s.procs[p], j) && s.procs[p].phase.Executing? && j !in s.hit
    requires j in T(s) && StaleClaim(T(s)[j], sqlNow)
    ensures var read, done := SweepRead(j, sqlNow), WriteStatus(p, j, Completed, doneClock, true);
            && Run(s, [read, done]) && End(s, [read, done]) == u
            && j in T(u) && T(u)[j].latest.status == Done && T(u)[j].latest.created == NextVersion(doneClock, T(s)[j].latest.created)
            && JobOf(j, T(s)[j]) in u.swept
  {
    var read, done := SweepRead(j, sqlNow), WriteStatus(p, j, Completed, doneClock, true);
    assert Relies(T(s), s.procs[p], s.now, j) && ProcCarries(T(s), s.procs[p]);
    assert Carries(T(s), s.procs[p].held[j], j);
    TwoSteps(s, read, done);
    u := After(After(s, read), done);
    LatestAppend(s.log, DoneRow(s.procs[p].held[j], doneClock));
  }

  /** The job is then finished, and the sweep puts it back to pending if and only if
      its clock has passed the version of the completion. */
  lemma LateSweepUndoesCompletion(s: State, p: Pid, j: JobId, sqlNow: int, doneClock: int, sweepClock: int, retryAfter: int)
    requires Reachable(s) && p in s.procs && Holds(s.procs[p], j) && s.procs[p].phase.Executing? && j !in s.hit
    requires j in T(s) && StaleClaim(T(s)[j], sqlNow)
    ensures var steps := LateSweep(s, p, j, sqlNow, doneClock, sweepClock, retryAfter);
            && Run(s, steps[..2]) && Finished(T(End(s, steps[..2])), j)
            && Run(s, steps) && j in T(End(s, steps))
            && (T(End(s, steps))[j].latest.status == Pending <==> sweepClock > NextVersion(doneClock, T(s)[j].latest.created))
  {
    ReachableInv(s);
    var steps := LateSweep(s, p, j, sqlNow, doneClock, sweepClock, retryAfter);
    var u := CompletesAfterRead(s, p, j, sqlNow, doneClock);
    assert steps[..2] == [steps[0], steps[1]] && steps == steps[..2] + [steps[2]];
    Then(s, steps[..2], steps[2]);
    LatestAppend(u.log, DeferRow(JobOf(j, T(s)[j]), sweepClock, retryAfter, SweepMessage));
  }

  /** It does happen: from the start, a job is enqueued, claimed, swept, completed
      and, by the last step, pending again. */
  lemma FinishedJobIsPutBack(worker: string, j: JobId, payload: Payload) returns (steps: seq<Step>)
    ensures Run(Initial, steps) && |steps| > 0
    ensures Run(Initial, steps[..|steps| - 1]) && Finished(T(End(Initial, steps[..|steps| - 1])), j)
    ensures j in T(End(Initial, steps)) && T(End(Initial, steps))[j].latest.status == Pending
  {
    var s := ClaimHappens(worker, j, payload);
    HolderOwnsLatestRow(s, 0, j);
    ReachableInv(s);
    assert Stamped(T(s));
    var sqlNow := (T(s)[j].latest.claimedAt.value + StaleAfter + 1) * 1000;
    var v := T(s)[j].latest.created;
    LateSweepUndoesCompletion(s, 0, j, sqlNow, v + 1, v + 2, 0);
    var late := LateSweep(s, 0, j, sqlNow, v + 1, v + 2, 0);
    var before :| Run(Initial, before) && End(Initial, before) == s;
    RunsCompose(Initial, before, late);
    RunsCompose(Initial, before, late[..2]);
    steps := before + late;
    assert steps[..|steps| - 1] == before + late[..2];
  }
}
