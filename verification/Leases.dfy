/** Lease fencing over runs: at most the latest token of a job ever passes. */
module LeaseProofs {
  import opened Base
  import opened Tables
  import opened ScopeTree
  import opened PlacementProofs
  import opened JobLifeProofs
  import opened JobOps
  import ScopeOps
  import PeopleOps
  import MemoryOps
  import SlotOps
  import opened Workspace

  /** The claim tokens handed out so far, by job, in order. */
  type History = map<Id, seq<string>>

  function Issued(h: History, j: Id): seq<string> {
    if j in h then h[j] else []
  }

  predicate Spent(h: History, token: string) {
    exists j :: j in h && token in h[j]
  }

  /** The call claims a job and commits. */
  ghost predicate Claims(cfg: Config, db: Database, call: Call) {
    call.Dispatch? && call.op.OnJobs? && call.op.jobs.Claim? && Dispatched(cfg, db, call.who, call.op).Ok?
  }

  ghost function Logged(cfg: Config, db: Database, h: History, call: Call): History {
    if Claims(cfg, db, call)
    then h[call.op.jobs.job := Issued(h, call.op.jobs.job) + [call.op.jobs.token]]
    else h
  }

  /** Claim tokens are freshly random: none is ever generated twice. */
  ghost predicate FreshToken(h: History, call: Call) {
    call.Dispatch? && call.op.OnJobs? && call.op.jobs.Claim? ==> !Spent(h, call.op.jobs.token)
  }

  /** No token was issued twice. */
  ghost predicate Distinct(h: History) {
    forall i, j, m: nat, n: nat :: i in h && j in h && m < |h[i]| && n < |h[j]| && h[i][m] == h[j][n] ==> i == j && m == n
  }

  /** A job has one token per attempt, and the one it holds is the last. */
  ghost predicate FencedAt(job: Job, issued: seq<string>) {
    && |issued| == job.attempts
    && (job.token.Some? ==> issued != [] && job.token.value == issued[|issued| - 1])
  }

  ghost predicate Fencing(db: Database, h: History) {
    && Distinct(h)
    && h.Keys <= db.used
    && (forall j :: j in db.jobs ==> FencedAt(db.jobs[j], Issued(h, j)))
  }

  // ---------------------------------------------------------------- what fencing means

  /** Of all tokens ever issued for a job, only the latest can pass the fence, whatever the clock says. */
  lemma OnlyLatestPasses(db: Database, h: History, a: Id, j: Id, token: string, now: int)
    requires Fencing(db, h) && a in db.principals && Fenced(db, a, j, token, now).Ok?
    ensures Issued(h, j) != [] && token == Issued(h, j)[|Issued(h, j)| - 1]
  {
    hide RequireRole;
    assert FencedAt(db.jobs[j], Issued(h, j));
  }

  /** Tokens issued are attempts, and there are at most five. */
  lemma TokensAreAttempts(db: Database, h: History, j: Id)
    requires Fencing(db, h) && AllShaped(db.jobs) && j in db.jobs
    ensures |Issued(h, j)| == db.jobs[j].attempts <= MAX_ATTEMPTS
  {
    assert FencedAt(db.jobs[j], Issued(h, j)) && Shaped(db.jobs[j]);
  }

  // ---------------------------------------------------------------- one step

  /** What an operation does to the attempts and the token of a job. */
  ghost predicate TokenStep(before: Job, after: Job) {
    after.attempts == before.attempts && (after.token == before.token || after.token == None)
  }

  lemma JobOpTokens(cfg: Config, db: Database, a: Id, op: JobOp)
    requires AllShaped(db.jobs) && Known(db) && a in db.principals && JobOps.Performed(cfg, db, a, op).Ok?
    ensures var d := JobOps.Performed(cfg, db, a, op).value;
      && (op.Claim? ==> op.job in db.jobs && d.jobs == db.jobs[op.job := ClaimedRow(db.jobs[op.job], op.token, op.now, op.seconds)])
      && (!op.Claim? ==> forall j :: j in db.jobs && j in d.jobs ==> TokenStep(db.jobs[j], d.jobs[j]))
      && (forall j :: j in d.jobs && j !in db.jobs ==> j !in db.used && NewJob(d.jobs[j]))
  {
    hide Shaped, Advances, JobCreated, JobClaimed, JobRenewed, JobSubmitted, JobReviewed, JobCancelled, CompletesBy;
    match op
    case CreateJob(_, _, _, _, _) => JobCreatedRow(cfg, db, a, op); CreatedId(cfg, db, a, op);
    case Claim(_, _, _, _) => JobClaimedRow(db, a, op);
    case Renew(_, _, _, _) => JobRenewedRow(db, a, op);
    case Submit(_, _, _, _) => JobSubmittedRow(cfg, db, a, op);
    case ReviewJob(_, _) => JobEndedRow(db, a, op);
    case Cancel(_) => JobEndedRow(db, a, op);
  }

  lemma CreatedId(cfg: Config, db: Database, a: Id, op: JobOp)
    requires a in db.principals && op.CreateJob? && JobCreated(cfg, db, a, op).Ok?
    ensures var d := JobCreated(cfg, db, a, op).value; d.jobs == db.jobs || op.id !in db.used
  {
    hide RequireRole, RoleFor, JobFindings, JobBytes, Replayed, JobOps.SamePayload;
  }

  lemma KeptFencing(db: Database, d: Database, h: History)
    requires Fencing(db, h) && db.used <= d.used
    requires forall j :: j in db.jobs && j in d.jobs ==> TokenStep(db.jobs[j], d.jobs[j])
    requires forall j :: j in d.jobs && j !in db.jobs ==> j !in db.used && NewJob(d.jobs[j])
    ensures Fencing(d, h)
  {
    forall j | j in d.jobs ensures FencedAt(d.jobs[j], Issued(h, j)) {
      if j in db.jobs { assert FencedAt(db.jobs[j], Issued(h, j)); }
    }
  }

  lemma ClaimFencing(db: Database, d: Database, h: History, op: JobOp)
    requires Fencing(db, h) && db.used <= d.used && op.Claim? && op.job in db.jobs && op.job in db.used && !Spent(h, op.token)
    requires d.jobs == db.jobs[op.job := ClaimedRow(db.jobs[op.job], op.token, op.now, op.seconds)]
    ensures Fencing(d, h[op.job := Issued(h, op.job) + [op.token]])
  {
    var after := h[op.job := Issued(h, op.job) + [op.token]];
    assert FencedAt(db.jobs[op.job], Issued(h, op.job));
    forall i, j, m: nat, n: nat | i in after && j in after && m < |after[i]| && n < |after[j]| && after[i][m] == after[j][n]
      ensures i == j && m == n
    {
      if i in h && m < |h[i]| { assert after[i][m] == h[i][m] && h[i][m] in h[i]; }
      if j in h && n < |h[j]| { assert after[j][n] == h[j][n] && h[j][n] in h[j]; }
    }
    forall j | j in d.jobs ensures FencedAt(d.jobs[j], Issued(after, j)) {
      assert FencedAt(db.jobs[j], Issued(h, j));
    }
  }

  lemma DispatchFencing(cfg: Config, db: Database, h: History, who: Identity, op: Op)
    requires Fencing(db, h) && AllShaped(db.jobs) && Known(db) && FreshToken(h, Dispatch(who, op))
    requires Dispatched(cfg, db, who, op).Ok?
    ensures Fencing(Dispatched(cfg, db, who, op).value, Logged(cfg, db, h, Dispatch(who, op)))
  {
    hide Fencing, AllShaped, Spent, ScopeOps.Performed, PeopleOps.Performed, MemoryOps.Performed, JobOps.Performed, SlotOps.Performed,
         ClaimedRow;
    var d := Dispatched(cfg, db, who, op).value;
    match op
    case OnScopes(o) => ScopeFrame(cfg, db, who.id, o); ScopeOpJobs(cfg, db, who.id, o); KeptFencing(db, d, h);
    case OnPeople(o) => PeopleFrame(cfg, db, who.id, o); KeptFencing(db, d, h);
    case OnMemory(o) => MemoryFrame(cfg, db, who.id, o); KeptFencing(db, d, h);
    case OnJobs(o) =>
      JobFrame(cfg, db, who.id, o);
      JobOpTokens(cfg, db, who.id, o);
      if o.Claim? { ClaimFencing(db, d, h, o); } else { KeptFencing(db, d, h); }
    case OnSlots(o) => SlotFrame(cfg, db, who.id, o); KeptFencing(db, d, h);
  }

  lemma StepFencing(cfg: Config, db: Database, h: History, call: Call)
    requires Fencing(db, h) && AllShaped(db.jobs) && Known(db) && FreshToken(h, call)
    ensures Fencing(Step(cfg, db, call), Logged(cfg, db, h, call))
  {
    hide Fencing, AllShaped, Known, FreshToken, Dispatched, PeopleOps.OrganisationCreated;
    var d := Step(cfg, db, call);
    match call
    case Dispatch(who, op) => if Dispatched(cfg, db, who, op).Ok? { DispatchFencing(cfg, db, h, who, op); }
    case NewOrganisation(t) =>
      if PeopleOps.OrganisationCreated(db, t).Ok? { TenantFrame(db, t); }
      KeptFencing(db, d, h);
    case Recalculate(_) => KeptFencing(db, d, h);
    case BillingAuthority(_) => KeptFencing(db, d, h);
  }

  /** A token that a later claim superseded can never become the latest again. */
  lemma SupersededStays(cfg: Config, db: Database, h: History, call: Call, j: Id, n: nat)
    requires Distinct(h) && n + 1 < |Issued(h, j)|
    ensures var later := Logged(cfg, db, h, call);
      n + 1 < |Issued(later, j)| && Issued(later, j)[n] == Issued(h, j)[n]
  {
    hide Dispatched;
  }
}
