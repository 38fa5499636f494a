/** Leased jobs, step by step on a session. */
module JobStore {
  import opened Base
  import opened Tables
  import opened ScopeTree
  import opened Sessions
  import opened JobOps
  import PayloadScan
  import BillingEngines
  import Meter

  method InsertJob(sess: Session, id: Id, row: Job)
    modifies sess`used, sess`jobs
    ensures sess.Tables() == old(sess.Tables()).(used := old(sess.used) + {id}, jobs := old(sess.jobs)[id := row])
  {
    sess.used, sess.jobs := sess.used + {id}, sess.jobs[id := row];
  }

  method FindJob(sess: Session, org: Id, jid: Id) returns (r: Result<Job>)
    ensures r == GetJob(sess.Tables(), org, jid)
  {
    if jid in sess.jobs && sess.jobs[jid].org == org { return Ok(sess.jobs[jid]); }
    return Err(NotFound);
  }

  method Assignable(sess: Session, a: Id, op: JobOp) returns (r: Result<()>)
    requires a in sess.principals && op.CreateJob?
    ensures r.Err? ==> forall cfg: Config :: JobCreated(cfg, sess.Tables(), a, op) == Err(r.code)
    ensures r.Ok? ==>
      var db := sess.Tables();
      && GetScope(db, db.principals[a].org, op.scope).Ok?
      && RequireRole(db, a, op.scope, Writer).Pass?
      && op.assignee in db.principals && db.principals[op.assignee].org == db.principals[a].org && db.principals[op.assignee].active
      && RoleFor(db, op.assignee, op.scope).Ok? && AtLeast(RoleFor(db, op.assignee, op.scope).value, Writer)
  {
    hide RequireRole, RoleFor, Replayed, SamePayload, JobFindings, Meter.Charged;
    var org := sess.principals[a].org;
    var scope :- FindScope(sess, org, op.scope);
    :- Require(sess, a, op.scope, Writer);
    :- Need(op.assignee in sess.principals && sess.principals[op.assignee].org == org && sess.principals[op.assignee].active, NotFound);
    var role :- RoleOn(sess, op.assignee, op.scope);
    :- Need(AtLeast(role, Writer), Denied);
    return Ok(());
  }

  method JobCreate(cfg: Config, sess: Session, a: Id, op: JobOp) returns (r: Result<()>)
    requires a in sess.principals && op.CreateJob?
    modifies sess
    ensures Answers(r, JobCreated(cfg, old(sess.Tables()), a, op), sess.Tables())
  {
    hide RequireRole, RoleFor, SameRequest, PayloadScan.Findings, PayloadScan.Clean, Meter.Charged, JobBytes;
    var _ :- Assignable(sess, a, op);
    var org := sess.principals[a].org;
    var existing := set j | j in sess.jobs && SameRequest(sess.jobs[j], a, op.scope, op.idempotency);
    assert existing != {} <==> Replayed(sess.Tables(), a, op) by {
      if Replayed(sess.Tables(), a, op) {
        var j :| j in sess.jobs && SameRequest(sess.jobs[j], a, op.scope, op.idempotency);
        assert j in existing;
      }
    }
    if existing != {} {
      if exists j :: j in existing && sess.jobs[j].objective == op.objective && sess.jobs[j].assignee == op.assignee {
        return Ok(());
      }
      return Err(IdempotencyConflict);
    }
    var findings := PayloadScan.ScanPayload(cfg.scan,
      PayloadScan.Object([PayloadScan.Text("objective"), PayloadScan.Text("idempotency_key")],
                         [PayloadScan.Str(op.objective), PayloadScan.Str(op.idempotency)]));
    var row := Job(org, op.scope, a, op.assignee, op.objective, op.idempotency, if findings != {} then Held else Queued,
                   findings != {}, findings, None, None, 0, None);
    assert row == QueuedRow(cfg, org, a, op);
    var _ :- BillingEngines.ChargeStorage(cfg, sess, org, JobBytes(row));
    :- Need(op.id !in sess.used, Conflict);
    InsertJob(sess, op.id, row);
    return Ok(());
  }

  /** The conditional update that decides a claim: it changes a row only while the fence still holds. */
  method UpdateClaim(sess: Session, jid: Id, fence: nat, token: string, now: int, seconds: int) returns (won: bool)
    requires jid in sess.jobs
    modifies sess`jobs
    ensures won <==> Claimable(old(sess.jobs)[jid], fence, now)
    ensures sess.jobs == if won then old(sess.jobs)[jid := ClaimedRow(old(sess.jobs)[jid], token, now, seconds)] else old(sess.jobs)
  {
    won := Claimable(sess.jobs[jid], fence, now);
    if won {
      sess.jobs := sess.jobs[jid := sess.jobs[jid].(status := Claimed, token := Some(token),
                                                    lease := Some(now + seconds * SECOND), attempts := fence + 1)];
    }
  }

  method JobClaim(sess: Session, a: Id, op: JobOp) returns (r: Result<()>)
    requires a in sess.principals && op.Claim?
    modifies sess`jobs
    ensures Answers(r, JobClaimed(old(sess.Tables()), a, op), sess.Tables())
  {
    hide RequireRole, Claimable, ClaimedRow;
    var org := sess.principals[a].org;
    :- Need(LeaseAllowed(op.seconds), InvalidArgument);
    var job :- FindJob(sess, org, op.job);
    :- Need(job.assignee == a, Denied);
    var scope :- FindScope(sess, org, job.scope);
    :- Require(sess, a, job.scope, Writer);
    var expired := job.status == Claimed && (job.lease.None? || job.lease.value < op.now);
    :- Need(job.status == Queued || expired, InvalidState);
    :- Need(job.attempts < MAX_ATTEMPTS, AttemptsExhausted);
    var won := UpdateClaim(sess, op.job, job.attempts, op.token, op.now, op.seconds);
    :- Need(won, Conflict);
    return Ok(());
  }

  method JobFenced(sess: Session, a: Id, jid: Id, token: string, now: int) returns (r: Result<Job>)
    requires a in sess.principals
    ensures r == Fenced(sess.Tables(), a, jid, token, now)
  {
    hide RequireRole;
    var org := sess.principals[a].org;
    var job :- FindJob(sess, org, jid);
    :- Need(job.assignee == a, Denied);
    var scope :- FindScope(sess, org, job.scope);
    :- Require(sess, a, job.scope, Writer);
    :- Need(job.status == Claimed, InvalidState);
    if job.lease.None? || job.lease.value < now { return Err(Code.LeaseExpired); }
    if job.token.None? || job.token.value != token { return Err(Denied); }
    return Ok(job);
  }

  method JobRenew(sess: Session, a: Id, op: JobOp) returns (r: Result<()>)
    requires a in sess.principals && op.Renew?
    modifies sess`jobs
    ensures Answers(r, JobRenewed(old(sess.Tables()), a, op), sess.Tables())
  {
    hide RequireRole, Expired;
    :- Need(LeaseAllowed(op.seconds), InvalidArgument);
    var job :- JobFenced(sess, a, op.job, op.token, op.now);
    sess.jobs := sess.jobs[op.job := job.(lease := Some(op.now + op.seconds * SECOND))];
    return Ok(());
  }

  method JobSubmit(cfg: Config, sess: Session, a: Id, op: JobOp) returns (r: Result<()>)
    requires a in sess.principals && op.Submit?
    modifies sess
    ensures Answers(r, JobSubmitted(cfg, old(sess.Tables()), a, op), sess.Tables())
  {
    hide Fenced, Meter.Charged, Bytes, FindingsBytes, PayloadScan.Findings, PayloadScan.Clean;
    var json := cfg.dumps(op.result);
    :- Need(json.Some? && |json.value| <= MAX_RESULT, InvalidArgument);
    var job :- JobFenced(sess, a, op.job, op.token, op.now);
    var findings := PayloadScan.ScanPayload(cfg.scan, op.result);
    var more := FindingsBytes(findings) - FindingsBytes(job.findings);
    var _ :- BillingEngines.ChargeStorage(cfg, sess, job.org, Bytes(json.value) + if more > 0 then more else 0);
    sess.jobs := sess.jobs[op.job := job.(result := json, findings := findings, quarantined := findings != {},
                                          status := if findings != {} then Held else AwaitingReview)];
    return Ok(());
  }

  method JobReview(sess: Session, a: Id, op: JobOp) returns (r: Result<()>)
    requires a in sess.principals && op.ReviewJob?
    modifies sess`jobs
    ensures Answers(r, JobReviewed(old(sess.Tables()), a, op), sess.Tables())
  {
    hide RoleFor;
    var org := sess.principals[a].org;
    var job :- FindJob(sess, org, op.job);
    :- Need(job.assignee != a, Denied);
    var scope :- FindScope(sess, org, job.scope);
    var role :- RoleOn(sess, a, job.scope);
    var creatorMay := job.creator == a && AtLeast(role, Writer);
    var reviewerMay := AtLeast(role, Reviewer);
    :- Need(creatorMay || reviewerMay, Denied);
    :- Need(job.status == AwaitingReview || job.status == Held, InvalidState);
    if op.accept && job.quarantined { return Err(Code.Quarantined); }
    sess.jobs := sess.jobs[op.job := job.(status := if op.accept then Completed else Failed, token := None, lease := None)];
    return Ok(());
  }

  method JobCancel(sess: Session, a: Id, op: JobOp) returns (r: Result<()>)
    requires a in sess.principals && op.Cancel?
    modifies sess`jobs
    ensures Answers(r, JobCancelled(old(sess.Tables()), a, op), sess.Tables())
  {
    hide RoleFor;
    var org := sess.principals[a].org;
    var job :- FindJob(sess, org, op.job);
    var scope :- FindScope(sess, org, job.scope);
    var role :- RoleOn(sess, a, job.scope);
    :- Need(job.creator == a || AtLeast(role, Reviewer), Denied);
    :- Need(!Terminal(job.status), InvalidState);
    sess.jobs := sess.jobs[op.job := job.(status := Cancelled, token := None, lease := None)];
    return Ok(());
  }

  method Perform(cfg: Config, sess: Session, a: Id, op: JobOp) returns (r: Result<()>)
    requires a in sess.principals
    modifies sess
    ensures Answers(r, Performed(cfg, old(sess.Tables()), a, op), sess.Tables())
  {
    hide JobCreated, JobClaimed, JobRenewed, JobSubmitted, JobReviewed, JobCancelled;
    match op
    case CreateJob(_, _, _, _, _) => r := JobCreate(cfg, sess, a, op);
    case Claim(_, _, _, _) => r := JobClaim(sess, a, op);
    case Renew(_, _, _, _) => r := JobRenew(sess, a, op);
    case Submit(_, _, _, _) => r := JobSubmit(cfg, sess, a, op);
    case ReviewJob(_, _) => r := JobReview(sess, a, op);
    case Cancel(_) => r := JobCancel(sess, a, op);
  }
}
