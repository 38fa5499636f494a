/** Exactly when a job operation succeeds, and what it leaves behind (distributedai/persistence/workspace.py). */
module JobLaws {
  import opened Base
  import opened Tables
  import opened ScopeTree
  import opened PlacementProofs
  import opened JobLifeProofs
  import opened AccountingProofs
  import opened RunProofs
  import opened AuthorityProofs
  import opened Encodings
  import opened MemoryLaws
  import opened JobOps
  import JobEffects
  import PayloadScan
  import ScopeOps
  import PeopleOps
  import MemoryOps
  import SlotOps
  import Meter
  import opened Workspace

  // ---------------------------------------------------------------- creation

  /** Objective and idempotency key, and the names they are scanned under, are clean. */
  predicate CleanJob(cfg: Config, op: JobOp)
    requires op.CreateJob?
  {
    cfg.scan(op.objective) == {} && cfg.scan(op.idempotency) == {} && cfg.scan("objective") == {} && cfg.scan("idempotency_key") == {}
  }

  lemma JobScan(cfg: Config, op: JobOp)
    requires op.CreateJob?
    ensures JobFindings(cfg, op.objective, op.idempotency) == {} <==> CleanJob(cfg, op)
  {
    hide PayloadScan.Clean, PayloadScan.Findings;
    var keys, texts := ["objective", "idempotency_key"], [op.objective, op.idempotency];
    FlatClean(cfg.scan, keys, texts);
    assert Names(keys) == [PayloadScan.Text("objective"), PayloadScan.Text("idempotency_key")];
    assert Texts(texts) == [PayloadScan.Str(op.objective), PayloadScan.Str(op.idempotency)];
    PayloadScan.NoFindingsExactlyWhenClean(cfg.scan, PayloadScan.Object(Names(keys), Texts(texts)));
    assert (forall i :: 0 <= i < 2 ==> cfg.scan(keys[i]) == {}) <==> cfg.scan(keys[0]) == {} && cfg.scan(keys[1]) == {};
    assert (forall i :: 0 <= i < 2 ==> cfg.scan(texts[i]) == {}) <==> cfg.scan(texts[0]) == {} && cfg.scan(texts[1]) == {};
  }

  ghost function JobSize(cfg: Config, op: JobOp): nat
    requires op.CreateJob?
  {
    |Utf8(op.objective)| + |Utf8(JsonList(JobFindings(cfg, op.objective, op.idempotency)))|
  }

  /** Some job of the creator in the scope has the idempotency key. */
  ghost predicate KeyUsed(db: Database, a: Id, op: JobOp)
    requires op.CreateJob?
  {
    exists j :: j in db.jobs && db.jobs[j].creator == a && db.jobs[j].scope == op.scope && db.jobs[j].idempotency == op.idempotency
  }

  /** The same, with the same objective and assignee. */
  ghost predicate SameAsked(db: Database, a: Id, op: JobOp)
    requires op.CreateJob?
  {
    exists j :: j in db.jobs && db.jobs[j].creator == a && db.jobs[j].scope == op.scope && db.jobs[j].idempotency == op.idempotency
      && db.jobs[j].objective == op.objective && db.jobs[j].assignee == op.assignee
  }

  lemma KeysAgree(db: Database, a: Id, op: JobOp)
    requires op.CreateJob?
    ensures Replayed(db, a, op) <==> KeyUsed(db, a, op)
    ensures JobOps.SamePayload(db, a, op) <==> SameAsked(db, a, op)
  {
  }

  /** The row of a new job: queued when it is clean, otherwise held and quarantined. */
  function NewRow(cfg: Config, org: Id, a: Id, op: JobOp): Job
    requires op.CreateJob?
  {
    Job(org, op.scope, a, op.assignee, op.objective, op.idempotency, if CleanJob(cfg, op) then Queued else Held, !CleanJob(cfg, op),
        JobFindings(cfg, op.objective, op.idempotency), None, None, 0, None)
  }

  /** Exactly a writer of the scope asks an active writer of the scope, under a key that is unused while the bytes
      fit, or that stands for the same request; then there is the job that was asked for. */
  lemma CreatesJobExactly(cfg: Config, db: Database, a: Id, op: JobOp)
    requires Forest(db.scopes) && Placed(db) && (cfg.metered ==> Balanced(db)) && a in db.principals && op.CreateJob?
    ensures JobCreated(cfg, db, a, op).Ok? <==>
      && Holds(db, a, op.scope, Writer)
      && op.assignee in db.principals && db.principals[op.assignee].active && Holds(db, op.assignee, op.scope, Writer)
      && if KeyUsed(db, a, op) then SameAsked(db, a, op)
         else Room(cfg, db, db.principals[a].org, JobSize(cfg, op)) && op.id !in db.used
    ensures JobCreated(cfg, db, a, op).Ok? ==>
      JobCreated(cfg, db, a, op).value ==
        if KeyUsed(db, a, op) then db
        else db.(used := db.used + {op.id},
                 usage := Counted(cfg, db, db.principals[a].org, JobSize(cfg, op)),
                 jobs := db.jobs[op.id := NewRow(cfg, db.principals[a].org, a, op)])
  {
    hide Forest, Placed, Balanced, Recount, RequireRole, Holds, Meter.Charged, Room, Counted, Utf8, JsonList, Bytes, FindingsBytes,
         RoleFor, AtLeast, CleanJob, JobFindings, Replayed, JobOps.SamePayload, KeyUsed, SameAsked;
    HoldsScope(db, a, op.scope, Writer);
    if op.scope in db.scopes && op.assignee in db.principals {
      HoldsScope(db, op.assignee, op.scope, Writer);
      RequiredRole(db, op.assignee, op.scope, Writer);
    }
    KeysAgree(db, a, op);
    JobScan(cfg, op);
    BytesAreUtf8(op.objective);
    FindingsAreJson(JobFindings(cfg, op.objective, op.idempotency));
    ChargesExactly(cfg, db, db.principals[a].org, JobSize(cfg, op));
  }

  lemma RequiredRole(db: Database, p: Id, s: Id, minimum: Role)
    requires p in db.principals && s in db.scopes
    ensures RequireRole(db, p, s, minimum).Pass? <==> RoleFor(db, p, s).Ok? && AtLeast(RoleFor(db, p, s).value, minimum)
    ensures RequireRole(db, p, s, minimum).Pass? ==> db.scopes[s].org == db.principals[p].org
  {
    hide Chain, GrantedRole;
  }

  // ---------------------------------------------------------------- what is held never completes

  /** A held job, or what it can become: it has findings and will keep them. */
  predicate Suspicious(job: Job) {
    job.findings != {} && (job.status == Held || job.status == Failed || job.status == Cancelled)
  }

  ghost predicate StaysSuspicious(before: map<Id, Job>, after: map<Id, Job>) {
    forall j :: j in before && Suspicious(before[j]) && j in after ==> Suspicious(after[j])
  }

  lemma JobOpSuspicious(cfg: Config, db: Database, a: Id, op: JobOp)
    requires AllShaped(db.jobs) && Known(db) && a in db.principals && JobOps.Performed(cfg, db, a, op).Ok?
    ensures StaysSuspicious(db.jobs, JobOps.Performed(cfg, db, a, op).value.jobs)
  {
    hide JobCreated, RequireRole, RoleFor, AtLeast, Meter.Charged, FindingsBytes, Bytes, PayloadScan.Findings, AllShaped, Expired;
    if op.CreateJob? { JobCreatedRow(cfg, db, a, op); }
    else if op.job in db.jobs { ShapedAt(db.jobs, op.job); }
  }

  lemma ShapedAt(jobs: map<Id, Job>, j: Id)
    requires AllShaped(jobs) && j in jobs
    ensures Shaped(jobs[j])
  {
  }

  lemma KeptSuspicious(before: map<Id, Job>, after: map<Id, Job>)
    requires JobsKept(before, after)
    ensures StaysSuspicious(before, after)
  {
  }

  lemma DispatchSuspicious(cfg: Config, db: Database, who: Identity, op: Op)
    requires AllShaped(db.jobs) && Known(db) && Dispatched(cfg, db, who, op).Ok?
    ensures StaysSuspicious(db.jobs, Dispatched(cfg, db, who, op).value.jobs)
  {
    hide ScopeOps.Performed, PeopleOps.Performed, MemoryOps.Performed, JobOps.Performed, SlotOps.Performed, AllShaped, StaysSuspicious;
    var d := Dispatched(cfg, db, who, op).value;
    KeptSuspicious(db.jobs, db.jobs);
    match op
    case OnScopes(o) => ScopeOpJobs(cfg, db, who.id, o); KeptSuspicious(db.jobs, d.jobs);
    case OnPeople(o) => PeopleFrame(cfg, db, who.id, o);
    case OnMemory(o) => MemoryFrame(cfg, db, who.id, o);
    case OnJobs(o) => JobOpSuspicious(cfg, db, who.id, o);
    case OnSlots(o) => SlotFrame(cfg, db, who.id, o);
  }

  lemma StepSuspicious(cfg: Config, db: Database, call: Call)
    requires AllShaped(db.jobs) && Known(db)
    ensures StaysSuspicious(db.jobs, Step(cfg, db, call).jobs)
  {
    hide Dispatched, PeopleOps.OrganisationCreated, AllShaped;
    match call
    case Dispatch(who, op) => if Dispatched(cfg, db, who, op).Ok? { DispatchSuspicious(cfg, db, who, op); }
    case NewOrganisation(t) => if PeopleOps.OrganisationCreated(db, t).Ok? { TenantFrame(db, t); }
    case Recalculate(_) =>
    case BillingAuthority(_) =>
  }

  lemma {:induction false} RunSuspicious(cfg: Config, db: Database, calls: seq<Call>, j: Id)
    requires Sound(cfg, db) && j in db.jobs && Suspicious(db.jobs[j])
    ensures var d := Run(cfg, db, calls); j in d.jobs ==> Suspicious(d.jobs[j])
    decreases |calls|
  {
    hide Sound, Step, AllShaped, Known, Suspicious;
    if calls != [] {
      JobEffects.SoundJobs(cfg, db);
      StepSound(cfg, db, calls[0]);
      StepSuspicious(cfg, db, calls[0]);
      var d := Step(cfg, db, calls[0]);
      if j in d.jobs { RunSuspicious(cfg, d, calls[1..], j); }
      else { Gone(cfg, db, calls[0], j); JobEffects.SoundJobs(cfg, d); RunFollows(cfg, d, calls[1..], OfJob(j)); }
    }
  }

  lemma Gone(cfg: Config, db: Database, call: Call, j: Id)
    requires Known(db) && j in db.jobs
    ensures j in Step(cfg, db, call).used
  {
    hide Step;
    StepUsed(cfg, db, call);
  }

  /** A new job whose objective or idempotency key is suspicious is held: nobody can claim it, and no run
      completes it. */
  lemma SuspiciousIsHeld(cfg: Config, db: Database, a: Id, op: JobOp, calls: seq<Call>, who: Identity)
    requires Reachable(cfg, db) && a == who.id && op.CreateJob? && Dispatched(cfg, db, who, OnJobs(op)).Ok?
    requires cfg.scan(op.objective) != {} || cfg.scan(op.idempotency) != {}
    requires a in db.principals && !KeyUsed(db, a, op)
    ensures var d := Dispatched(cfg, db, who, OnJobs(op)).value; var later := Run(cfg, d, calls);
      && op.id in d.jobs && d.jobs[op.id].status == Held && d.jobs[op.id].quarantined
      && JobEffects.Unclaimable(d, op.id)
      && (op.id in later.jobs ==> later.jobs[op.id].status != Completed)
  {
    hide Reachable, Sound, Run, JobCreated, KeyUsed, JobEffects.Unclaimable, JobFindings, Forest, Placed, Balanced, Holds, Room, Counted,
         JobSize;
    ReachableSound(cfg, db);
    SoundParts(cfg, db);
    CreatesJobExactly(cfg, db, a, op);
    JobScan(cfg, op);
    var d := Dispatched(cfg, db, who, OnJobs(op)).value;
    JobEffects.NotClaimed(d, op.id);
    StepSound(cfg, db, Call.Dispatch(who, OnJobs(op)));
    RunSuspicious(cfg, Step(cfg, db, Call.Dispatch(who, OnJobs(op))), calls, op.id);
  }

  lemma SoundParts(cfg: Config, db: Database)
    requires Sound(cfg, db)
    ensures Forest(db.scopes) && Placed(db) && (cfg.metered ==> Balanced(db)) && AllShaped(db.jobs)
  {
  }

  /** A clean new job is queued, and its assignee, while a writer of the scope, can claim it. */
  lemma CleanIsQueued(cfg: Config, db: Database, a: Id, op: JobOp, claim: JobOp)
    requires Forest(db.scopes) && Placed(db) && (cfg.metered ==> Balanced(db)) && AllShaped(db.jobs)
    requires a in db.principals && op.CreateJob? && JobCreated(cfg, db, a, op).Ok? && CleanJob(cfg, op) && !KeyUsed(db, a, op)
    requires claim.Claim? && claim.job == op.id && 30 <= claim.seconds <= 1800
    ensures var d := JobCreated(cfg, db, a, op).value;
      && op.id in d.jobs && d.jobs[op.id].status == Queued && !d.jobs[op.id].quarantined
      && op.assignee in d.principals && JobClaimed(d, op.assignee, claim).Ok?
  {
    hide JobCreated, KeyUsed, JobFindings, Forest, Placed, Balanced, Holds, Room, Counted, JobSize, AllShaped, RequireRole, CleanJob;
    CreatesJobExactly(cfg, db, a, op);
    var d := JobCreated(cfg, db, a, op).value;
    HoldsScope(db, a, op.scope, Writer);
    HoldsScope(db, op.assignee, op.scope, Writer);
    SameRole(db, d, op.assignee, op.scope, Writer);
  }

  lemma SameRole(db: Database, d: Database, p: Id, s: Id, minimum: Role)
    requires d.principals == db.principals && d.scopes == db.scopes && d.owners == db.owners && d.grants == db.grants
    requires p in db.principals && s in db.scopes
    ensures RequireRole(d, p, s, minimum) == RequireRole(db, p, s, minimum)
  {
    hide Chain, GrantedRole;
  }

  // ---------------------------------------------------------------- claims

  /** The job is of a scope of its organisation. */
  lemma JobHome(db: Database, j: Id)
    requires Placed(db) && j in db.jobs
    ensures db.jobs[j].scope in db.scopes && db.scopes[db.jobs[j].scope].org == db.jobs[j].org
  {
    assert Lives(db.scopes, db.jobs[j].scope, db.jobs[j].org);
  }

  /** Exactly the assignee, while a writer, claims its job for 30 to 1800 seconds: one that is queued, or claimed
      and past its lease, with fewer than five attempts made. */
  lemma ClaimsExactly(db: Database, a: Id, op: JobOp)
    requires Forest(db.scopes) && Placed(db) && AllShaped(db.jobs) && a in db.principals && op.Claim?
    ensures JobClaimed(db, a, op).Ok? <==>
      && 30 <= op.seconds <= 1800 && op.job in db.jobs
      && var job := db.jobs[op.job];
         && job.assignee == a && Holds(db, a, job.scope, Writer) && job.attempts < 5
         && (job.status == Queued || (job.status == Claimed && job.lease.Some? && job.lease.value < op.now))
    ensures JobClaimed(db, a, op).Ok? ==>
      JobClaimed(db, a, op).value == db.(jobs := db.jobs[op.job := db.jobs[op.job].(
        status := Claimed, token := Some(op.token), lease := Some(op.now + op.seconds * 1_000_000),
        attempts := db.jobs[op.job].attempts + 1)])
  {
    hide Forest, Placed, RequireRole, Holds;
    if op.job in db.jobs {
      JobHome(db, op.job);
      HoldsScope(db, a, db.jobs[op.job].scope, Writer);
      assert Shaped(db.jobs[op.job]);
    }
  }

  /** The holder of a job at an instant: its assignee, while a writer, with its token and within the lease. */
  ghost predicate HolderAt(db: Database, a: Id, j: Id, token: string, now: int) {
    && j in db.jobs && db.jobs[j].assignee == a && Holds(db, a, db.jobs[j].scope, Writer)
    && db.jobs[j].status == Claimed && db.jobs[j].token == Some(token) && db.jobs[j].lease.Some? && now <= db.jobs[j].lease.value
  }

  lemma FencesExactly(db: Database, a: Id, j: Id, token: string, now: int)
    requires Forest(db.scopes) && Placed(db) && a in db.principals
    ensures Fenced(db, a, j, token, now).Ok? <==> HolderAt(db, a, j, token, now)
    ensures HolderAt(db, a, j, token, now) ==> Fenced(db, a, j, token, now) == Ok(db.jobs[j])
  {
    hide Forest, Placed, RequireRole, Holds;
    if j in db.jobs {
      JobHome(db, j);
      HoldsScope(db, a, db.jobs[j].scope, Writer);
    }
  }

  /** Exactly the holder renews its lease, for 30 to 1800 seconds from now. */
  lemma RenewsExactly(db: Database, a: Id, op: JobOp)
    requires Forest(db.scopes) && Placed(db) && a in db.principals && op.Renew?
    ensures JobRenewed(db, a, op).Ok? <==> 30 <= op.seconds <= 1800 && HolderAt(db, a, op.job, op.token, op.now)
    ensures JobRenewed(db, a, op).Ok? ==>
      JobRenewed(db, a, op).value ==
        db.(jobs := db.jobs[op.job := db.jobs[op.job].(lease := Some(op.now + op.seconds * 1_000_000))])
  {
    hide Forest, Placed, Fenced, Holds;
    FencesExactly(db, a, op.job, op.token, op.now);
  }

  // ---------------------------------------------------------------- results

  /** The bytes that a result adds: its JSON text, and what its findings take more than an empty list. */
  ghost function ResultSize(cfg: Config, op: JobOp): nat
    requires op.Submit? && cfg.dumps(op.result).Some?
  {
    var findings := PayloadScan.Findings(cfg.scan, op.result);
    FindingsAreJson(findings);
    EmptyList();
    |Utf8(cfg.dumps(op.result).value)| + (|Utf8(JsonList(findings))| - |Utf8("[]")|)
  }

  lemma EmptyList()
    ensures |Utf8("[]")| == 2
  {
    AsciiBytes("[]");
    BytesAreUtf8("[]");
  }

  /** Exactly the holder submits a result, of at most 20000 characters of JSON, while its bytes fit; the job awaits
      review when the result is clean and is held otherwise. */
  lemma SubmitsExactly(cfg: Config, db: Database, a: Id, op: JobOp)
    requires Forest(db.scopes) && Placed(db) && (cfg.metered ==> Balanced(db)) && AllShaped(db.jobs) && a in db.principals && op.Submit?
    ensures |Utf8("[]")| == 2
    ensures JobSubmitted(cfg, db, a, op).Ok? <==>
      && cfg.dumps(op.result).Some? && |cfg.dumps(op.result).value| <= 20000
      && HolderAt(db, a, op.job, op.token, op.now) && Room(cfg, db, db.jobs[op.job].org, ResultSize(cfg, op))
    ensures JobSubmitted(cfg, db, a, op).Ok? ==>
      var findings := PayloadScan.Findings(cfg.scan, op.result);
      var clean := PayloadScan.Clean(cfg.scan, op.result);
      JobSubmitted(cfg, db, a, op).value == db.(
        usage := Counted(cfg, db, db.jobs[op.job].org, ResultSize(cfg, op)),
        jobs := db.jobs[op.job := db.jobs[op.job].(result := cfg.dumps(op.result), findings := findings, quarantined := !clean,
                                                   status := if clean then AwaitingReview else Held)])
  {
    hide Forest, Placed, Balanced, Fenced, Holds, Meter.Charged, Room, Counted, Utf8, JsonList, Bytes, FindingsBytes, PayloadScan.Findings,
         PayloadScan.Clean, Recount;
    EmptyList();
    var findings := PayloadScan.Findings(cfg.scan, op.result);
    FencesExactly(db, a, op.job, op.token, op.now);
    PayloadScan.NoFindingsExactlyWhenClean(cfg.scan, op.result);
    FindingsAreJson(findings);
    NoFindingsTakeTwo();
    AtLeastTwo(findings);
    if cfg.dumps(op.result).Some? && HolderAt(db, a, op.job, op.token, op.now) {
      BytesAreUtf8(cfg.dumps(op.result).value);
      assert Shaped(db.jobs[op.job]);
      ChargesExactly(cfg, db, db.jobs[op.job].org, ResultSize(cfg, op));
    }
  }

  lemma NoFindingsTakeTwo()
    ensures FindingsBytes({}) == 2
  {
  }

  lemma AtLeastTwo(findings: Findings)
    ensures FindingsBytes(findings) >= 2
  {
  }

  // ---------------------------------------------------------------- ends

  /** The role check does not fail for want of an end of the walk. */
  ghost predicate WalkEnds(db: Database, p: Id, s: Id) {
    ByGrants(db, p, s) ==> Up(db.scopes, s, 100) == None
  }

  lemma RoleReadable(db: Database, p: Id, s: Id)
    requires Forest(db.scopes) && Placed(db) && p in db.principals && s in db.scopes
    ensures RoleFor(db, p, s).Ok? <==> WalkEnds(db, p, s)
  {
    hide Forest, Placed, RoleFor;
    if ByGrants(db, p, s) { RoleExactly(db, p, s, Admin); } else { RoleWithoutGrants(db, p, s); }
  }

  /** Exactly the creator, while a writer, or a reviewer of the scope decides a submitted or held job that is not
      its own to do; a quarantined one cannot be accepted. */
  lemma ReviewsJobExactly(db: Database, a: Id, op: JobOp)
    requires Forest(db.scopes) && Placed(db) && a in db.principals && op.ReviewJob?
    ensures JobReviewed(db, a, op).Ok? <==>
      && op.job in db.jobs && db.jobs[op.job].org == db.principals[a].org
      && var job := db.jobs[op.job];
         && job.assignee != a
         && ((job.creator == a && Holds(db, a, job.scope, Writer)) || Holds(db, a, job.scope, Reviewer))
         && (job.status == AwaitingReview || job.status == Held)
         && (op.accept ==> !job.quarantined)
    ensures JobReviewed(db, a, op).Ok? ==>
      JobReviewed(db, a, op).value == db.(jobs := db.jobs[op.job := db.jobs[op.job].(
        status := if op.accept then Completed else Failed, token := None, lease := None)])
  {
    hide Forest, Placed, RequireRole, RoleFor, AtLeast, Holds;
    if op.job in db.jobs {
      var s := db.jobs[op.job].scope;
      JobHome(db, op.job);
      HoldsScope(db, a, s, Writer);
      HoldsScope(db, a, s, Reviewer);
      RequiredRole(db, a, s, Writer);
      RequiredRole(db, a, s, Reviewer);
    }
  }

  /** Exactly the creator or a reviewer of the scope cancels a job that has not ended. */
  lemma CancelsExactly(db: Database, a: Id, op: JobOp)
    requires Forest(db.scopes) && Placed(db) && a in db.principals && op.Cancel?
    ensures JobCancelled(db, a, op).Ok? <==>
      && op.job in db.jobs && db.jobs[op.job].org == db.principals[a].org
      && var job := db.jobs[op.job];
         && WalkEnds(db, a, job.scope)
         && (job.creator == a || Holds(db, a, job.scope, Reviewer))
         && job.status !in {Completed, Failed, Cancelled}
    ensures JobCancelled(db, a, op).Ok? ==>
      JobCancelled(db, a, op).value ==
        db.(jobs := db.jobs[op.job := db.jobs[op.job].(status := Cancelled, token := None, lease := None)])
  {
    hide Forest, Placed, RequireRole, RoleFor, AtLeast, Holds, WalkEnds;
    if op.job in db.jobs {
      var s := db.jobs[op.job].scope;
      JobHome(db, op.job);
      HoldsScope(db, a, s, Reviewer);
      RequiredRole(db, a, s, Reviewer);
      RoleReadable(db, a, s);
    }
  }
}
