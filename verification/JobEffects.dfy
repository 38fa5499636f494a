/** What the job operations mean to whoever calls next: who holds a claim and until when, what ends it, and
    which request an idempotency key stands for (distributedai/persistence/workspace.py). */
module JobEffects {
  import opened Base
  import opened Tables
  import opened ScopeTree
  import opened PlacementProofs
  import opened JobLifeProofs
  import opened RunProofs
  import opened JobOps
  import PersonalProofs
  import RoleEffects
  import ScopeOps
  import PeopleOps
  import MemoryOps
  import SlotOps
  import PayloadScan
  import Meter
  import opened Workspace

  // ---------------------------------------------------------------- holding a claim

  /** At every instant up to `until`, and with this token alone, the fence lets the holder pass. */
  ghost predicate HeldUntil(db: Database, holder: Id, j: Id, token: string, until: int)
    requires holder in db.principals
  {
    forall t, now :: Fenced(db, holder, j, t, now).Ok? <==> t == token && now <= until
  }

  /** No token passes the fence any more, at any instant, for anybody. */
  ghost predicate Released(db: Database, j: Id) {
    forall p, t, now | p in db.principals :: !Fenced(db, p, j, t, now).Ok?
  }

  ghost predicate OthersKept(before: map<Id, Job>, after: map<Id, Job>, j: Id) {
    after.Keys == before.Keys && forall i :: i in before && i != j ==> after[i] == before[i]
  }

  /** The fence in terms of the row and of the role. */
  lemma FenceRow(db: Database, p: Id, j: Id, t: string, now: int)
    requires p in db.principals
    ensures Fenced(db, p, j, t, now).Ok? <==>
      && j in db.jobs && db.jobs[j].org == db.principals[p].org && db.jobs[j].assignee == p
      && db.jobs[j].scope in db.scopes && db.scopes[db.jobs[j].scope].org == db.jobs[j].org
      && RequireRole(db, p, db.jobs[j].scope, Writer).Pass?
      && db.jobs[j].status == Claimed && db.jobs[j].token == Some(t) && db.jobs[j].lease.Some? && now <= db.jobs[j].lease.value
  {
    hide RequireRole;
  }

  lemma SameRole(db: Database, jobs: map<Id, Job>, p: Id, s: Id)
    requires p in db.principals && s in db.scopes
    ensures RequireRole(db.(jobs := jobs), p, s, Writer) == RequireRole(db, p, s, Writer)
  {
    hide Chain, GrantedRole;
    RoleEffects.SameTablesRole(db.(jobs := jobs), db, p, s);
  }

  /** A claim takes the job over: from now on its token alone passes, until its lease ends; nobody can claim
      again before that; the attempt is counted; and no other job changes. */
  lemma ClaimTakesOver(db: Database, a: Id, op: JobOp)
    requires AllShaped(db.jobs) && a in db.principals && op.Claim? && JobClaimed(db, a, op).Ok?
    ensures var d := JobClaimed(db, a, op).value; var until := op.now + op.seconds * SECOND;
      && op.job in db.jobs && OthersKept(db.jobs, d.jobs, op.job)
      && HeldUntil(d, a, op.job, op.token, until)
      && d.jobs[op.job].attempts == db.jobs[op.job].attempts + 1 <= MAX_ATTEMPTS
      && forall p, again: JobOp | p in d.principals && again.Claim? && again.job == op.job && again.now <= until ::
           JobClaimed(d, p, again).Err?
  {
    hide RequireRole, AllShaped;
    var d := JobClaimed(db, a, op).value;
    SameRole(db, d.jobs, a, db.jobs[op.job].scope);
    forall t, now { FenceRow(d, a, op.job, t, now); }
  }

  /** The conditional update of a claim only ever loses to a concurrent claim: alone it never conflicts. */
  lemma ClaimAloneNeverConflicts(db: Database, a: Id, op: JobOp)
    requires AllShaped(db.jobs) && a in db.principals && op.Claim?
    ensures JobClaimed(db, a, op) != Err(Conflict)
  {
    hide Chain, GrantedRole;
    if op.job in db.jobs { assert Shaped(db.jobs[op.job]); }
    if op.job in db.jobs && db.jobs[op.job].scope in db.scopes {
      assert RequireRole(db, a, db.jobs[op.job].scope, Writer) != Fail(Conflict) by { RoleCode(db, a, db.jobs[op.job].scope); }
    }
  }

  lemma {:induction false} ChainCode(scopes: Scopes, org: Id, s: Id, steps: nat)
    requires s in scopes
    ensures ChainFrom(scopes, org, s, steps).Err? ==> ChainFrom(scopes, org, s, steps) == Err(InvalidState)
    decreases steps
  {
    if steps > 0 && ParentIn(scopes, org, s).Some? { ChainCode(scopes, org, scopes[s].parent.value, steps - 1); }
  }

  lemma RoleCode(db: Database, p: Id, s: Id)
    requires p in db.principals && s in db.scopes
    ensures RequireRole(db, p, s, Writer).Fail? ==> RequireRole(db, p, s, Writer).code in {Denied, InvalidState}
  {
    hide GrantedRole;
    ChainCode(db.scopes, db.scopes[s].org, s, MAX_WALK);
  }

  /** A renewal succeeds exactly for whoever passes the fence, and moves the end of the lease and nothing else. */
  lemma RenewExtends(db: Database, a: Id, op: JobOp)
    requires a in db.principals && op.Renew?
    ensures JobRenewed(db, a, op).Ok? <==> LeaseAllowed(op.seconds) && Fenced(db, a, op.job, op.token, op.now).Ok?
    ensures JobRenewed(db, a, op).Ok? ==> var d := JobRenewed(db, a, op).value;
      && op.job in db.jobs && OthersKept(db.jobs, d.jobs, op.job)
      && HeldUntil(d, a, op.job, op.token, op.now + op.seconds * SECOND)
      && d.jobs[op.job] == db.jobs[op.job].(lease := d.jobs[op.job].lease)
  {
    hide RequireRole;
    if JobRenewed(db, a, op).Ok? {
      var d := JobRenewed(db, a, op).value;
      FenceRow(db, a, op.job, op.token, op.now);
      SameRole(db, d.jobs, a, db.jobs[op.job].scope);
      forall t, now { FenceRow(d, a, op.job, t, now); }
    }
  }

  // ---------------------------------------------------------------- ending a claim

  /** Nobody can claim the job, at any instant. */
  ghost predicate Unclaimable(db: Database, j: Id) {
    forall p, op: JobOp | p in db.principals && op.Claim? && op.job == j :: JobClaimed(db, p, op).Err?
  }

  lemma NotClaimed(db: Database, j: Id)
    requires j in db.jobs && db.jobs[j].status != Claimed && db.jobs[j].status != Queued
    ensures Released(db, j) && Unclaimable(db, j)
  {
    hide RequireRole;
  }

  /** A submitted result ends the claim for good. It awaits review exactly if it was scanned clean in full; a
      result that was not can be rejected or cancelled but never accepted. */
  lemma SubmitEndsClaim(cfg: Config, db: Database, a: Id, op: JobOp)
    requires a in db.principals && op.Submit? && JobSubmitted(cfg, db, a, op).Ok?
    ensures var d := JobSubmitted(cfg, db, a, op).value;
      && op.job in db.jobs && OthersKept(db.jobs, d.jobs, op.job)
      && Released(d, op.job) && Unclaimable(d, op.job)
      && d.jobs[op.job].result == cfg.dumps(op.result) && d.jobs[op.job].result.Some?
      && d.jobs[op.job].status == (if PayloadScan.Clean(cfg.scan, op.result) then AwaitingReview else Held)
      && (forall p | p in d.principals && JobReviewed(d, p, ReviewJob(op.job, true)).Ok? :: PayloadScan.Clean(cfg.scan, op.result))
  {
    hide RequireRole, RoleFor, AtLeast, Meter.Charged, PayloadScan.Findings, PayloadScan.Clean, FindingsBytes, Bytes, Fenced, Released,
         Unclaimable;
    FencedRow(db, a, op.job, op.token, op.now);
    var d := JobSubmitted(cfg, db, a, op).value;
    PayloadScan.NoFindingsExactlyWhenClean(cfg.scan, op.result);
    NotClaimed(d, op.job);
  }

  lemma FencedRow(db: Database, a: Id, j: Id, token: string, now: int)
    requires a in db.principals && Fenced(db, a, j, token, now).Ok?
    ensures j in db.jobs && Fenced(db, a, j, token, now) == Ok(db.jobs[j])
  {
    hide RequireRole;
  }

  // ---------------------------------------------------------------- ending the job

  lemma EndedRefuses(cfg: Config, db: Database, p: Id, op: JobOp)
    requires p in db.principals && !op.CreateJob? && op.job in db.jobs && Terminal(db.jobs[op.job].status)
    ensures JobOps.Performed(cfg, db, p, op).Err?
  {
    hide RequireRole, RoleFor, AtLeast, Meter.Charged, PayloadScan.Findings, FindingsBytes, Bytes;
  }

  /** A review or a cancellation ends the job: completed only with a result that had no findings and by
      somebody else than its assignee. Whoever tries anything on it afterwards is refused. */
  lemma EndedForGood(cfg: Config, db: Database, a: Id, op: JobOp)
    requires AllShaped(db.jobs) && a in db.principals && (op.ReviewJob? || op.Cancel?) && JobOps.Performed(cfg, db, a, op).Ok?
    ensures var d := JobOps.Performed(cfg, db, a, op).value;
      && op.job in db.jobs && OthersKept(db.jobs, d.jobs, op.job) && !Terminal(db.jobs[op.job].status)
      && d.jobs[op.job].status == (if op.Cancel? then Cancelled else if op.accept then Completed else Failed)
      && (d.jobs[op.job].status == Completed ==>
            a != d.jobs[op.job].assignee && d.jobs[op.job].result.Some? && d.jobs[op.job].findings == {})
      && Released(d, op.job) && Unclaimable(d, op.job)
      && (forall p, again: JobOp | p in d.principals && !again.CreateJob? && again.job == op.job :: JobOps.Performed(cfg, d, p, again).Err?)
  {
    hide RoleFor, AtLeast, Released, Unclaimable, JobCreated, JobClaimed, JobRenewed, JobSubmitted, Shaped, Progress;
    JobEndedRow(db, a, op);
    EndsOpen(db, a, op);
    var d := JobOps.Performed(cfg, db, a, op).value;
    EndedShape(db.jobs[op.job], d.jobs[op.job]);
    NotClaimed(d, op.job);
    forall p, again: JobOp | p in d.principals && !again.CreateJob? && again.job == op.job ensures JobOps.Performed(cfg, d, p, again).Err? {
      EndedRefuses(cfg, d, p, again);
    }
  }

  lemma EndsOpen(db: Database, a: Id, op: JobOp)
    requires a in db.principals
    requires (op.ReviewJob? && JobReviewed(db, a, op).Ok?) || (op.Cancel? && JobCancelled(db, a, op).Ok?)
    ensures op.job in db.jobs && !Terminal(db.jobs[op.job].status)
    ensures op.ReviewJob? ==> a != db.jobs[op.job].assignee
  {
    hide RoleFor, AtLeast;
  }

  lemma EndedShape(before: Job, after: Job)
    requires Shaped(after)
    ensures after.status == Completed ==> after.result.Some? && after.findings == {}
  {
  }

  // ---------------------------------------------------------------- idempotency keys

  /** One idempotency key of a creator in a scope names one job. */
  ghost predicate OneEachKey(jobs: map<Id, Job>) {
    forall i, j :: i in jobs && j in jobs && SameRequest(jobs[i], jobs[j].creator, jobs[j].scope, jobs[j].idempotency) ==> i == j
  }

  lemma CreatedUnique(cfg: Config, db: Database, a: Id, op: JobOp)
    requires OneEachKey(db.jobs) && a in db.principals && op.CreateJob? && JobCreated(cfg, db, a, op).Ok?
    ensures OneEachKey(JobCreated(cfg, db, a, op).value.jobs)
  {
    hide RequireRole, RoleFor, AtLeast, Meter.Charged, JobFindings, JobBytes, SamePayload;
  }

  lemma WrittenUnique(db: Database, a: Id, j: Id, after: map<Id, Job>)
    requires OneEachKey(db.jobs) && a in db.principals && PersonalProofs.OneJobWritten(db, a, j, after)
    requires after[j].idempotency == db.jobs[j].idempotency
    ensures OneEachKey(after)
  {
    hide PersonalProofs.Entitled;
  }

  lemma JobOpUnique(cfg: Config, db: Database, a: Id, op: JobOp)
    requires OneEachKey(db.jobs) && AllShaped(db.jobs) && Known(db) && a in db.principals && JobOps.Performed(cfg, db, a, op).Ok?
    ensures OneEachKey(JobOps.Performed(cfg, db, a, op).value.jobs)
  {
    hide OneEachKey, AllShaped, JobCreated, JobClaimed, JobRenewed, JobSubmitted, JobReviewed, JobCancelled, PersonalProofs.Entitled,
         Progress;
    if op.CreateJob? { CreatedUnique(cfg, db, a, op); }
    else {
      PersonalProofs.JobOpWrites(cfg, db, a, op);
      JobOpAdvances(cfg, db, a, op);
      WrittenUnique(db, a, op.job, JobOps.Performed(cfg, db, a, op).value.jobs);
    }
  }

  /** A merge brings no two jobs of one key together, because it refuses when it would. */
  lemma MergedUnique(db: Database, a: Id, op: ScopeOps.ScopeOp)
    requires OneEachKey(db.jobs) && a in db.principals && op.Merge? && ScopeOps.Merged(db, a, op).Ok?
    ensures OneEachKey(ScopeOps.Merged(db, a, op).value.jobs)
  {
    hide ScopeOps.Merged;
    MergedJobs(db, a, op);
    MergeApart(db, a, op);
    var jobs := ScopeOps.Merged(db, a, op).value.jobs;
    assert forall j :: j in jobs ==> Untouched(db.jobs[j], jobs[j]);
  }

  lemma MergeApart(db: Database, a: Id, op: ScopeOps.ScopeOp)
    requires a in db.principals && op.Merge? && ScopeOps.Merged(db, a, op).Ok?
    ensures !ScopeOps.JobsCollide(db.jobs, op.source, op.target)
  {
    hide Permitted, Chain, ScopeOps.Retained, ScopeOps.Rehomed, ScopeOps.Dropped, ScopeOps.Adopted, ScopeOps.ChildNamesCollide,
         ScopeOps.MemoryKeys, ScopeOps.JobsCollide;
  }

  lemma ScopeOpUnique(cfg: Config, db: Database, a: Id, op: ScopeOps.ScopeOp)
    requires OneEachKey(db.jobs) && a in db.principals && ScopeOps.Performed(cfg, db, a, op).Ok?
    ensures OneEachKey(ScopeOps.Performed(cfg, db, a, op).value.jobs)
  {
    hide OneEachKey, ScopeOps.Created, ScopeOps.PolicySet, ScopeOps.OwnerSet, ScopeOps.Moved, ScopeOps.Deleted, ScopeOps.Merged,
         ScopeOps.PersonalEnsured;
    if op.Merge? { MergedUnique(db, a, op); }
    else if op.DeleteScope? {
      PersonalProofs.DeletedKept(cfg, db, a, op);
      FewerUnique(db.jobs, ScopeOps.Deleted(cfg, db, a, op).value.jobs);
    }
  }

  lemma FewerUnique(before: map<Id, Job>, after: map<Id, Job>)
    requires OneEachKey(before) && forall j :: j in after ==> j in before && after[j] == before[j]
    ensures OneEachKey(after)
  {
  }

  lemma DispatchUnique(cfg: Config, db: Database, who: Identity, op: Op)
    requires OneEachKey(db.jobs) && AllShaped(db.jobs) && Known(db) && Dispatched(cfg, db, who, op).Ok?
    ensures OneEachKey(Dispatched(cfg, db, who, op).value.jobs)
  {
    hide OneEachKey, AllShaped, ScopeOps.Performed, PeopleOps.Performed, MemoryOps.Performed, JobOps.Performed, SlotOps.Performed;
    match op
    case OnScopes(o) => ScopeOpUnique(cfg, db, who.id, o);
    case OnPeople(o) => PeopleFrame(cfg, db, who.id, o);
    case OnMemory(o) => MemoryFrame(cfg, db, who.id, o);
    case OnJobs(o) => JobOpUnique(cfg, db, who.id, o);
    case OnSlots(o) => SlotFrame(cfg, db, who.id, o);
  }

  lemma StepUnique(cfg: Config, db: Database, call: Call)
    requires OneEachKey(db.jobs) && AllShaped(db.jobs) && Known(db)
    ensures OneEachKey(Step(cfg, db, call).jobs)
  {
    hide OneEachKey, AllShaped, Dispatched, PeopleOps.OrganisationCreated;
    match call
    case Dispatch(who, op) => if Dispatched(cfg, db, who, op).Ok? { DispatchUnique(cfg, db, who, op); }
    case NewOrganisation(t) => if PeopleOps.OrganisationCreated(db, t).Ok? { TenantFrame(db, t); }
    case Recalculate(_) =>
    case BillingAuthority(_) =>
  }

  lemma SoundJobs(cfg: Config, db: Database)
    requires Sound(cfg, db)
    ensures AllShaped(db.jobs) && Known(db)
  {
  }

  lemma {:induction false} RunUnique(cfg: Config, db: Database, calls: seq<Call>)
    requires Sound(cfg, db) && OneEachKey(db.jobs)
    ensures OneEachKey(Run(cfg, db, calls).jobs)
    decreases |calls|
  {
    hide Sound, Step, OneEachKey, AllShaped, Known;
    if calls != [] {
      SoundJobs(cfg, db);
      StepSound(cfg, db, calls[0]);
      StepUnique(cfg, db, calls[0]);
      RunUnique(cfg, Step(cfg, db, calls[0]), calls[1..]);
    }
  }

  /** In every reachable state an idempotency key of one creator in one scope names one job, wherever merges
      brought the jobs. */
  lemma KeysNameOneJob(cfg: Config, db: Database)
    requires Reachable(cfg, db)
    ensures OneEachKey(db.jobs)
  {
    hide Sound, Run, OneEachKey;
    var calls :| Run(cfg, EMPTY, calls) == db;
    EmptySound(cfg);
    assert OneEachKey(EMPTY.jobs) by { NoJobs(); }
    RunUnique(cfg, EMPTY, calls);
  }

  lemma NoJobs()
    ensures OneEachKey(EMPTY.jobs)
  {
  }

  lemma SoleRequest(jobs: map<Id, Job>, i: Id, a: Id, op: JobOp, d: Database)
    requires OneEachKey(jobs) && i in jobs && op.CreateJob? && SameRequest(jobs[i], a, op.scope, op.idempotency) && d.jobs == jobs
    ensures Replayed(d, a, op)
    ensures SamePayload(d, a, op) <==> jobs[i].objective == op.objective && jobs[i].assignee == op.assignee
  {
  }

  /** The job that a successful request stands for. */
  lemma CreatedJob(cfg: Config, db: Database, a: Id, op: JobOp) returns (i: Id)
    requires OneEachKey(db.jobs) && a in db.principals && op.CreateJob? && JobCreated(cfg, db, a, op).Ok?
    ensures var d := JobCreated(cfg, db, a, op).value;
      i in d.jobs && SameRequest(d.jobs[i], a, op.scope, op.idempotency) && d.jobs[i].objective == op.objective && d.jobs[i].assignee == op.assignee
  {
    hide RequireRole, RoleFor, AtLeast, Meter.Charged, JobFindings, JobBytes, OneEachKey;
    if Replayed(db, a, op) {
      i :| i in db.jobs && SameRequest(db.jobs[i], a, op.scope, op.idempotency)
        && db.jobs[i].objective == op.objective && db.jobs[i].assignee == op.assignee;
    } else {
      i := op.id;
    }
  }

  lemma SameStanding(db: Database, d: Database, a: Id, op: JobOp)
    requires a in db.principals && op.CreateJob? && d == db.(used := d.used, jobs := d.jobs, usage := d.usage)
    requires op.scope in db.scopes && op.assignee in db.principals
    ensures RequireRole(d, a, op.scope, Writer) == RequireRole(db, a, op.scope, Writer)
    ensures RoleFor(d, op.assignee, op.scope) == RoleFor(db, op.assignee, op.scope)
  {
    hide Chain, GrantedRole;
    RoleEffects.SameTablesRole(d, db, a, op.scope);
    RoleEffects.SameTablesRole(d, db, op.assignee, op.scope);
  }

  lemma Eligible(cfg: Config, db: Database, a: Id, op: JobOp)
    requires a in db.principals && op.CreateJob? && JobCreated(cfg, db, a, op).Ok?
    ensures op.scope in db.scopes && op.assignee in db.principals
  {
    hide RequireRole, RoleFor, AtLeast, Meter.Charged, JobFindings, JobBytes, Replayed, SamePayload;
  }

  /** After a request succeeded, repeating it, with whatever new identifier, answers without changing anything,
      and the same key with another payload is refused. */
  lemma ReplayIsIdempotent(cfg: Config, db: Database, a: Id, op: JobOp, again: JobOp)
    requires OneEachKey(db.jobs) && a in db.principals && op.CreateJob? && JobCreated(cfg, db, a, op).Ok?
    requires again.CreateJob? && again.scope == op.scope && again.idempotency == op.idempotency
    ensures var d := JobCreated(cfg, db, a, op).value;
      && (again.objective == op.objective && again.assignee == op.assignee ==> JobCreated(cfg, d, a, again) == Ok(d))
      && (again.objective != op.objective && again.assignee == op.assignee ==> JobCreated(cfg, d, a, again) == Err(IdempotencyConflict))
      && (again.assignee != op.assignee ==> JobCreated(cfg, d, a, again).Err?)
  {
    hide RequireRole, RoleFor, AtLeast, Meter.Charged, JobFindings, JobBytes, OneEachKey, Replayed, SamePayload;
    var d := JobCreated(cfg, db, a, op).value;
    Eligible(cfg, db, a, op);
    SameStanding(db, d, a, op);
    CreatedUnique(cfg, db, a, op);
    var i := CreatedJob(cfg, db, a, op);
    SoleRequest(d.jobs, i, a, again, d);
  }
}
