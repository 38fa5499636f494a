/** Leased jobs: creation, claims fenced by attempt and token, results, review, cancellation. */
module JobOps {
  import opened Base
  import opened Tables
  import opened ScopeTree
  import PayloadScan
  import PeopleOps
  import ScopeOps
  import Meter

  const MIN_LEASE := 30
  const MAX_LEASE := 1800
  const MAX_ATTEMPTS := 5
  const MAX_RESULT := 20_000

  /** Clock readings are in microseconds. */
  const SECOND := 1_000_000

  datatype JobOp =
    | CreateJob(scope: Id, assignee: Id, objective: string, idempotency: string, id: Id)
    | Claim(job: Id, seconds: int, token: string, now: int)
    | Renew(job: Id, seconds: int, token: string, now: int)
    | Submit(job: Id, token: string, result: PayloadScan.Value, now: int)
    | ReviewJob(job: Id, accept: bool)
    | Cancel(job: Id)

  predicate Terminal(status: JobStatus) {
    status == Completed || status == Failed || status == Cancelled
  }

  function JobFindings(cfg: Config, objective: string, idempotency: string): Findings {
    PayloadScan.Findings(cfg.scan,
      PayloadScan.Object([PayloadScan.Text("objective"), PayloadScan.Text("idempotency_key")],
                         [PayloadScan.Str(objective), PayloadScan.Str(idempotency)]))
  }

  predicate SameRequest(job: Job, creator: Id, sid: Id, idempotency: string) {
    job.creator == creator && job.scope == sid && job.idempotency == idempotency
  }

  /** The creator already used this idempotency key in this scope. */
  predicate Replayed(db: Database, a: Id, op: JobOp)
    requires op.CreateJob?
  {
    exists j :: j in db.jobs && SameRequest(db.jobs[j], a, op.scope, op.idempotency)
  }

  predicate SamePayload(db: Database, a: Id, op: JobOp)
    requires op.CreateJob?
  {
    exists j :: j in db.jobs && SameRequest(db.jobs[j], a, op.scope, op.idempotency)
      && db.jobs[j].objective == op.objective && db.jobs[j].assignee == op.assignee
  }

  /** A new job: held at once when its objective or its key is suspicious. */
  function QueuedRow(cfg: Config, org: Id, creator: Id, op: JobOp): Job
    requires op.CreateJob?
  {
    var findings := JobFindings(cfg, op.objective, op.idempotency);
    Job(org, op.scope, creator, op.assignee, op.objective, op.idempotency,
        if findings != {} then Held else Queued, findings != {}, findings, None, None, 0, None)
  }

  ghost function JobCreated(cfg: Config, db: Database, a: Id, op: JobOp): (r: Result<Database>)
    requires a in db.principals && op.CreateJob?
    ensures r.Ok? ==> r.value == db.(used := r.value.used, jobs := r.value.jobs, usage := r.value.usage) && db.used <= r.value.used
  {
    var org := db.principals[a].org;
    var scope :- GetScope(db, org, op.scope);
    :- RequireRole(db, a, op.scope, Writer);
    :- Need(PeopleOps.Member(db, org, op.assignee), NotFound);
    var role :- RoleFor(db, op.assignee, op.scope);
    :- Need(AtLeast(role, Writer), Denied);
    if Replayed(db, a, op) then
      // An idempotent replay changes nothing; another payload under the same key is refused.
      if SamePayload(db, a, op) then Ok(db) else Err(IdempotencyConflict)
    else
      var row := QueuedRow(cfg, org, a, op);
      var charged :- Meter.Charged(cfg, db, org, JobBytes(row));
      :- ScopeOps.NewId(db, op.id);
      Ok(charged.(used := db.used + {op.id}, jobs := db.jobs[op.id := row]))
  }

  function GetJob(db: Database, org: Id, jid: Id): Result<Job> {
    if jid in db.jobs && db.jobs[jid].org == org then Ok(db.jobs[jid]) else Err(NotFound)
  }

  predicate LeaseAllowed(seconds: int) { MIN_LEASE <= seconds <= MAX_LEASE }

  predicate Expired(job: Job, now: int) { job.lease.None? || job.lease.value < now }

  /** A claim takes the next attempt, a new token and a new lease. */
  function ClaimedRow(job: Job, token: string, now: int, seconds: int): Job {
    job.(status := Claimed, token := Some(token), lease := Some(now + seconds * SECOND), attempts := job.attempts + 1)
  }

  function RenewedRow(job: Job, until: int): Job { job.(lease := Some(until)) }

  /** A result ends the claim: clean results await review, others are held. */
  function SubmittedRow(job: Job, json: string, findings: Findings): Job {
    job.(result := Some(json), findings := findings, quarantined := findings != {},
         status := if findings != {} then Held else AwaitingReview)
  }

  /** A terminal status drops the token and the lease. */
  function EndedRow(job: Job, status: JobStatus): Job {
    job.(status := status, token := None, lease := None)
  }

  /** The condition of the conditional UPDATE that decides a claim, for a reader that saw `fence`. */
  predicate Claimable(job: Job, fence: nat, now: int) {
    job.attempts == fence && (job.status == Queued || (job.status == Claimed && job.lease.Some? && job.lease.value < now))
  }

  function JobClaimed(db: Database, a: Id, op: JobOp): (r: Result<Database>)
    requires a in db.principals && op.Claim?
    ensures r.Ok? ==> r.value == db.(jobs := r.value.jobs)
  {
    var org := db.principals[a].org;
    :- Need(LeaseAllowed(op.seconds), InvalidArgument);
    var job :- GetJob(db, org, op.job);
    :- Need(job.assignee == a, Denied);
    var scope :- GetScope(db, org, job.scope);
    :- RequireRole(db, a, job.scope, Writer);
    :- Need(job.status == Queued || (job.status == Claimed && Expired(job, op.now)), InvalidState);
    :- Need(job.attempts < MAX_ATTEMPTS, AttemptsExhausted);
    :- Need(Claimable(job, job.attempts, op.now), Conflict);
    Ok(db.(jobs := db.jobs[op.job := ClaimedRow(job, op.token, op.now, op.seconds)]))
  }

  /** The shared lease fence of renew and submit. */
  function Fenced(db: Database, a: Id, jid: Id, token: string, now: int): Result<Job>
    requires a in db.principals
  {
    var org := db.principals[a].org;
    var job :- GetJob(db, org, jid);
    :- Need(job.assignee == a, Denied);
    var scope :- GetScope(db, org, job.scope);
    :- RequireRole(db, a, job.scope, Writer);
    :- Need(job.status == Claimed, InvalidState);
    :- Need(!Expired(job, now), Code.LeaseExpired);
    :- Need(job.token == Some(token), Denied);
    Ok(job)
  }

  function JobRenewed(db: Database, a: Id, op: JobOp): (r: Result<Database>)
    requires a in db.principals && op.Renew?
    ensures r.Ok? ==> r.value == db.(jobs := r.value.jobs)
  {
    var until := op.now + op.seconds * SECOND;
    :- Need(LeaseAllowed(op.seconds), InvalidArgument);
    var job :- Fenced(db, a, op.job, op.token, op.now);
    Ok(db.(jobs := db.jobs[op.job := RenewedRow(job, until)]))
  }

  function Max(a: int, b: int): int { if a >= b then a else b }

  ghost function JobSubmitted(cfg: Config, db: Database, a: Id, op: JobOp): (r: Result<Database>)
    requires a in db.principals && op.Submit?
    ensures r.Ok? ==> r.value == db.(jobs := r.value.jobs, usage := r.value.usage)
  {
    var json := cfg.dumps(op.result);
    :- Need(json.Some? && |json.value| <= MAX_RESULT, InvalidArgument);
    var job :- Fenced(db, a, op.job, op.token, op.now);
    var findings := PayloadScan.Findings(cfg.scan, op.result);
    var charged :- Meter.Charged(cfg, db, job.org,
                     Bytes(json.value) + Max(0, FindingsBytes(findings) - FindingsBytes(job.findings)));
    Ok(charged.(jobs := db.jobs[op.job := SubmittedRow(job, json.value, findings)]))
  }

  function JobReviewed(db: Database, a: Id, op: JobOp): (r: Result<Database>)
    requires a in db.principals && op.ReviewJob?
    ensures r.Ok? ==> r.value == db.(jobs := r.value.jobs)
  {
    var org := db.principals[a].org;
    var job :- GetJob(db, org, op.job);
    :- Need(job.assignee != a, Denied);
    var scope :- GetScope(db, org, job.scope);
    var role :- RoleFor(db, a, job.scope);
    :- Need((job.creator == a && AtLeast(role, Writer)) || AtLeast(role, Reviewer), Denied);
    :- Need(job.status == AwaitingReview || job.status == Held, InvalidState);
    :- Need(!(op.accept && job.quarantined), Code.Quarantined);
    Ok(db.(jobs := db.jobs[op.job := EndedRow(job, if op.accept then Completed else Failed)]))
  }

  function JobCancelled(db: Database, a: Id, op: JobOp): (r: Result<Database>)
    requires a in db.principals && op.Cancel?
    ensures r.Ok? ==> r.value == db.(jobs := r.value.jobs)
  {
    var org := db.principals[a].org;
    var job :- GetJob(db, org, op.job);
    var scope :- GetScope(db, org, job.scope);
    var role :- RoleFor(db, a, job.scope);
    :- Need(job.creator == a || AtLeast(role, Reviewer), Denied);
    :- Need(!Terminal(job.status), InvalidState);
    Ok(db.(jobs := db.jobs[op.job := EndedRow(job, Cancelled)]))
  }

  ghost function Performed(cfg: Config, db: Database, a: Id, op: JobOp): Result<Database>
    requires a in db.principals
  {
    match op
    case CreateJob(_, _, _, _, _) => JobCreated(cfg, db, a, op)
    case Claim(_, _, _, _) => JobClaimed(db, a, op)
    case Renew(_, _, _, _) => JobRenewed(db, a, op)
    case Submit(_, _, _, _) => JobSubmitted(cfg, db, a, op)
    case ReviewJob(_, _) => JobReviewed(db, a, op)
    case Cancel(_) => JobCancelled(db, a, op)
  }
}
