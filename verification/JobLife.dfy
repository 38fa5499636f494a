/** The life of a job over every run: its shape, its progress, and who completed it. */
module JobLifeProofs {
  import opened Base
  import opened Tables
  import opened ScopeTree
  import opened PlacementProofs
  import opened JobOps
  import ScopeOps
  import PeopleOps
  import MemoryOps
  import PayloadScan
  import SlotOps
  import Meter
  import opened Workspace

  type Jobs = map<Id, Job>

  // ---------------------------------------------------------------- the shape of a job

  ghost predicate Shaped(job: Job) {
    && job.attempts <= MAX_ATTEMPTS
    && (job.quarantined <==> job.findings != {})
    && (job.status == Queued ==> job.attempts == 0 && job.result == None && job.findings == {} && job.token == None && job.lease == None)
    && (job.status == Claimed ==> job.attempts >= 1 && job.result == None && job.findings == {} && job.token.Some? && job.lease.Some?)
    && (job.status == AwaitingReview || job.status == Completed ==> job.result.Some? && job.findings == {})
    && (job.status == Held ==> job.findings != {})
    && (Terminal(job.status) ==> job.token == None && job.lease == None)
  }

  ghost predicate AllShaped(jobs: Jobs) {
    forall j :: j in jobs ==> Shaped(jobs[j])
  }

  /** At one instant a claimed job is past its lease or usable by its holder, never both and never
      neither; the branch for a claim without a lease is dead. */
  lemma ExpiredOrUsable(db: Database, a: Id, j: Id, token: string, now: int)
    requires AllShaped(db.jobs) && a in db.principals && j in db.jobs
    requires db.jobs[j].status == Claimed && db.jobs[j].token == Some(token)
    requires db.jobs[j].org == db.principals[a].org && db.jobs[j].assignee == a
    requires GetScope(db, db.jobs[j].org, db.jobs[j].scope).Ok? && RequireRole(db, a, db.jobs[j].scope, Writer).Pass?
    ensures db.jobs[j].lease.Some?
    ensures Claimable(db.jobs[j], db.jobs[j].attempts, now) <==> !Fenced(db, a, j, token, now).Ok?
  {
    hide RequireRole;
    assert Shaped(db.jobs[j]);
  }

  // ---------------------------------------------------------------- progress

  function Stage(status: JobStatus): nat {
    match status
    case Queued => 0
    case Claimed => 1
    case AwaitingReview | Held => 2
    case Completed | Failed | Cancelled => 3
  }

  /** Bounded by 23 on a well-shaped job. */
  function Progress(job: Job): nat {
    Stage(job.status) * (MAX_ATTEMPTS + 1) + job.attempts
  }

  /** Who and what a job is never changes. */
  ghost predicate SameJob(before: Job, after: Job) {
    && after.org == before.org && after.creator == before.creator && after.assignee == before.assignee
    && after.objective == before.objective && after.idempotency == before.idempotency
  }

  ghost predicate Untouched(before: Job, after: Job) {
    after == before.(scope := after.scope)
  }

  ghost predicate OnlyRenewed(before: Job, after: Job) {
    before.status == Claimed && after == before.(lease := after.lease)
  }

  /** One step on a job: nothing but its scope, or a renewal, or progress of a job that was not terminal. */
  ghost predicate Advances(before: Job, after: Job) {
    && SameJob(before, after)
    && (Untouched(before, after) || OnlyRenewed(before, after)
        || (!Terminal(before.status) && Progress(before) < Progress(after)))
  }

  /** Terminal jobs absorb, and progress is bounded. */
  lemma TerminalAbsorbs(before: Job, after: Job)
    requires Advances(before, after) && Shaped(before) && Shaped(after)
    ensures Terminal(before.status) ==> Untouched(before, after)
    ensures Progress(after) <= 4 * MAX_ATTEMPTS + 3
  {
  }

  ghost predicate BecomesCompleted(before: Job, after: Job) {
    after.status == Completed && before.status != Completed
  }

  /** The operation that takes a job into `Completed`. */
  ghost predicate CompletesBy(before: Job, a: Id, op: JobOp, j: Id) {
    op == ReviewJob(j, true) && a != before.assignee && before.status == AwaitingReview
  }

  ghost predicate NewJob(job: Job) {
    job.attempts == 0 && job.token == None && (job.status == Queued || job.status == Held)
  }

  lemma JobCreatedRow(cfg: Config, db: Database, a: Id, op: JobOp)
    requires AllShaped(db.jobs) && Known(db) && a in db.principals && op.CreateJob? && JobCreated(cfg, db, a, op).Ok?
    ensures var d := JobCreated(cfg, db, a, op).value;
      && AllShaped(d.jobs)
      && (forall j :: j in db.jobs ==> j in d.jobs && d.jobs[j] == db.jobs[j])
      && (forall j :: j in d.jobs && j !in db.jobs ==> j == op.id && NewJob(d.jobs[j]))
  {
    hide RequireRole, RoleFor, Meter.Charged, JobFindings, JobBytes, Replayed, SamePayload;
  }

  lemma JobClaimedRow(db: Database, a: Id, op: JobOp)
    requires AllShaped(db.jobs) && a in db.principals && op.Claim? && JobClaimed(db, a, op).Ok?
    ensures op.job in db.jobs
    ensures var job := db.jobs[op.job];
      var row := ClaimedRow(job, op.token, op.now, op.seconds);
      JobClaimed(db, a, op).value.jobs == db.jobs[op.job := row] && Shaped(row) && Advances(job, row)
  {
    hide RequireRole;
    assert Shaped(db.jobs[op.job]);
  }

  lemma JobRenewedRow(db: Database, a: Id, op: JobOp)
    requires AllShaped(db.jobs) && a in db.principals && op.Renew? && JobRenewed(db, a, op).Ok?
    ensures op.job in db.jobs
    ensures var job := db.jobs[op.job];
      var row := RenewedRow(job, op.now + op.seconds * SECOND);
      JobRenewed(db, a, op).value.jobs == db.jobs[op.job := row] && Shaped(row) && Advances(job, row)
  {
    hide RequireRole;
    assert Shaped(db.jobs[op.job]);
  }

  lemma JobSubmittedRow(cfg: Config, db: Database, a: Id, op: JobOp)
    requires AllShaped(db.jobs) && a in db.principals && op.Submit? && JobSubmitted(cfg, db, a, op).Ok?
    ensures op.job in db.jobs && cfg.dumps(op.result).Some?
    ensures var job := db.jobs[op.job];
      var row := SubmittedRow(job, cfg.dumps(op.result).value, PayloadScan.Findings(cfg.scan, op.result));
      JobSubmitted(cfg, db, a, op).value.jobs == db.jobs[op.job := row] && Shaped(row) && Advances(job, row)
  {
    hide RequireRole, Meter.Charged, PayloadScan.Findings, FindingsBytes;
    assert Shaped(db.jobs[op.job]);
  }

  lemma JobEndedRow(db: Database, a: Id, op: JobOp)
    requires AllShaped(db.jobs) && a in db.principals
    requires (op.ReviewJob? && JobReviewed(db, a, op).Ok?) || (op.Cancel? && JobCancelled(db, a, op).Ok?)
    ensures op.job in db.jobs
    ensures var job := db.jobs[op.job];
      var row := EndedRow(job, if op.Cancel? then Cancelled else if op.accept then Completed else Failed);
      && (if op.Cancel? then JobCancelled(db, a, op) else JobReviewed(db, a, op)).value.jobs == db.jobs[op.job := row]
      && Shaped(row) && Advances(job, row)
      && (row.status == Completed ==> CompletesBy(job, a, op, op.job))
  {
    hide RoleFor, AtLeast;
    assert Shaped(db.jobs[op.job]);
  }

  /** What an operation does to every job that exists before it. */
  lemma JobOpAdvances(cfg: Config, db: Database, a: Id, op: JobOp)
    requires AllShaped(db.jobs) && Known(db) && a in db.principals && JobOps.Performed(cfg, db, a, op).Ok?
    ensures var d := JobOps.Performed(cfg, db, a, op).value;
      && AllShaped(d.jobs)
      && (forall j :: j in db.jobs ==> j in d.jobs && Advances(db.jobs[j], d.jobs[j]))
      && (forall j :: j in db.jobs && BecomesCompleted(db.jobs[j], d.jobs[j]) ==> CompletesBy(db.jobs[j], a, op, j))
      && (forall j :: j in d.jobs && j !in db.jobs ==> NewJob(d.jobs[j]))
  {
    hide Shaped, JobCreated, JobClaimed, JobRenewed, JobSubmitted, JobReviewed, JobCancelled, Progress, ClaimedRow, RenewedRow;
    match op
    case CreateJob(_, _, _, _, _) => JobCreatedRow(cfg, db, a, op);
    case Claim(_, _, _, _) => JobClaimedRow(db, a, op); ClaimedStatus(db.jobs[op.job], op);
    case Renew(_, _, _, _) => JobRenewedRow(db, a, op); RenewedStatus(db.jobs[op.job], op.now + op.seconds * SECOND);
    case Submit(_, _, _, _) => JobSubmittedRow(cfg, db, a, op);
    case ReviewJob(_, _) => JobEndedRow(db, a, op);
    case Cancel(_) => JobEndedRow(db, a, op);
  }

  lemma ClaimedStatus(job: Job, op: JobOp)
    requires op.Claim?
    ensures ClaimedRow(job, op.token, op.now, op.seconds).status == Claimed
  {
  }

  lemma RenewedStatus(job: Job, until: int)
    ensures RenewedRow(job, until).status == job.status
  {
  }

  // ---------------------------------------------------------------- every step

  /** Jobs after a step that is no job operation: some removed, some in another scope, none changed. */
  ghost predicate JobsKept(before: Jobs, after: Jobs) {
    forall j :: j in after ==> j in before && Untouched(before[j], after[j])
  }

  lemma ScopeOpJobs(cfg: Config, db: Database, a: Id, op: ScopeOps.ScopeOp)
    requires a in db.principals && ScopeOps.Performed(cfg, db, a, op).Ok?
    ensures JobsKept(db.jobs, ScopeOps.Performed(cfg, db, a, op).value.jobs)
  {
    hide ScopeOps.Created, ScopeOps.PolicySet, ScopeOps.OwnerSet, ScopeOps.Moved, ScopeOps.Deleted, ScopeOps.Merged,
         ScopeOps.PersonalEnsured;
    match op
    case DeleteScope(_, _) => DeletedJobs(cfg, db, a, op);
    case Merge(_, _) => MergedJobs(db, a, op);
    case CreateScope(_, _, _, _) =>
    case SetPolicy(_, _, _, _) =>
    case SetOwner(_, _) =>
    case Move(_, _) =>
    case OpenPersonal(_) =>
  }

  lemma DeletedJobs(cfg: Config, db: Database, a: Id, op: ScopeOps.ScopeOp)
    requires a in db.principals && op.DeleteScope? && ScopeOps.Deleted(cfg, db, a, op).Ok?
    ensures JobsKept(db.jobs, ScopeOps.Deleted(cfg, db, a, op).value.jobs)
  {
    hide RequireRole, Permitted, ScopeOps.HasChild, ScopeOps.HasData, Meter.Recounted;
  }

  lemma MergedJobs(db: Database, a: Id, op: ScopeOps.ScopeOp)
    requires a in db.principals && op.Merge? && ScopeOps.Merged(db, a, op).Ok?
    ensures var jobs := ScopeOps.Merged(db, a, op).value.jobs;
      && JobsKept(db.jobs, jobs) && jobs.Keys == db.jobs.Keys
      && forall j :: j in jobs ==> jobs[j].scope == ScopeOps.Home(op.source, op.target, db.jobs[j].scope)
  {
    hide Permitted, Chain, ScopeOps.Retained, ScopeOps.ChildNamesCollide, ScopeOps.JobsCollide, ScopeOps.MemoryKeys,
         ScopeOps.RehomedRecordKeys, ScopeOps.RehomedVersionKeys, ScopeOps.Adopted, ScopeOps.Home;
  }

  lemma KeptShaped(before: Jobs, after: Jobs)
    requires AllShaped(before) && JobsKept(before, after)
    ensures AllShaped(after)
  {
  }

  /** The step that completes a job. */
  ghost predicate Accepts(call: Call, j: Id, assignee: Id) {
    call.Dispatch? && call.op == OnJobs(ReviewJob(j, true)) && call.who.id != assignee
  }

  ghost predicate JobsAdvance(call: Call, before: Jobs, after: Jobs) {
    && (forall j :: j in before && j in after ==> Advances(before[j], after[j]))
    && (forall j :: j in before && j in after && BecomesCompleted(before[j], after[j]) ==> Accepts(call, j, before[j].assignee))
    && (forall j :: j in after && j !in before ==> NewJob(after[j]))
  }

  lemma KeptAdvance(call: Call, before: Jobs, after: Jobs)
    requires JobsKept(before, after)
    ensures JobsAdvance(call, before, after)
  {
  }

  lemma DispatchJobs(cfg: Config, db: Database, who: Identity, op: Op)
    requires AllShaped(db.jobs) && Known(db) && Dispatched(cfg, db, who, op).Ok?
    ensures var d := Dispatched(cfg, db, who, op).value;
      AllShaped(d.jobs) && JobsAdvance(Dispatch(who, op), db.jobs, d.jobs)
  {
    hide ScopeOps.Performed, PeopleOps.Performed, MemoryOps.Performed, JobOps.Performed, SlotOps.Performed, Shaped, Progress,
         Known;
    var d := Dispatched(cfg, db, who, op).value;
    if op.OnJobs? {
      JobOpAdvances(cfg, db, who.id, op.jobs);
    } else {
      match op {
        case OnScopes(o) => ScopeOpJobs(cfg, db, who.id, o);
        case OnPeople(o) => PeopleFrame(cfg, db, who.id, o);
        case OnMemory(o) => MemoryFrame(cfg, db, who.id, o);
        case OnSlots(o) => SlotFrame(cfg, db, who.id, o);
      }
      KeptShaped(db.jobs, d.jobs);
      KeptAdvance(Dispatch(who, op), db.jobs, d.jobs);
    }
  }

  /** Every step keeps the shape of all jobs and moves each job only forward. */
  lemma StepJobs(cfg: Config, db: Database, call: Call)
    requires AllShaped(db.jobs) && Known(db)
    ensures AllShaped(Step(cfg, db, call).jobs) && JobsAdvance(call, db.jobs, Step(cfg, db, call).jobs)
  {
    hide Dispatched, PeopleOps.OrganisationCreated, Shaped, Progress, Known;
    match call
    case Dispatch(who, op) =>
      if Dispatched(cfg, db, who, op).Ok? { DispatchJobs(cfg, db, who, op); } else { KeptAdvance(call, db.jobs, db.jobs); }
    case NewOrganisation(t) =>
      if PeopleOps.OrganisationCreated(db, t).Ok? { TenantFrame(db, t); }
      KeptAdvance(call, db.jobs, db.jobs);
    case Recalculate(_) => KeptAdvance(call, db.jobs, db.jobs);
    case BillingAuthority(_) => KeptAdvance(call, db.jobs, db.jobs);
  }
}
