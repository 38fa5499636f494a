/** The storage counter and the quota checks, step by step on a session (distributedai/persistence/billing.py). */
module BillingEngines {
  import opened Base
  import opened Tables
  import opened Sessions
  import opened SlotOps
  import PeopleOps
  import Meter

  // ---------------------------------------------------------------- counting bytes

  /** `_storage_size`: the UTF-8 bytes of every payload field of every row of an organisation. */
  method StorageSize(sess: Session, org: Id) returns (total: nat)
    ensures total == Recount(sess.Tables(), org)
  {
    var proposals := Sum(sess.proposals, ProposalWeight(org));
    var versions := Sum(sess.versions, VersionWeight(org));
    var messages := Sum(sess.messages, MessageWeight(org));
    var jobs := Sum(sess.jobs, JobWeight(org));
    total := proposals + versions + messages + jobs;
  }

  // ---------------------------------------------------------------- the counter

  method LockUsage(sess: Session, org: Id)
    modifies sess`usage
    ensures sess.Tables() == Meter.UsageLocked(old(sess.Tables()), org)
    ensures org in sess.usage
  {
    hide Recount;
    if org !in sess.usage {
      var size := StorageSize(sess, org);
      sess.usage := sess.usage[org := size];
    }
  }

  method ChargeStorage(cfg: Config, sess: Session, org: Id, n: nat) returns (r: Result<()>)
    modifies sess`usage
    ensures Answers(r, Meter.Charged(cfg, old(sess.Tables()), org, n), sess.Tables())
    ensures sess.Tables() == old(sess.Tables()).(usage := sess.usage)
  {
    hide Recount, Meter.UsageLocked, Meter.LimitsFor;
    if !cfg.metered || n == 0 { return Ok(()); }
    LockUsage(sess, org);
    var cap := Meter.LimitsFor(cfg, sess.accounts, org).maxBytes;
    if cap.Some? && sess.usage[org] + n > cap.value { return Err(QuotaExceeded); }
    sess.usage := sess.usage[org := sess.usage[org] + n];
    return Ok(());
  }

  lemma RecountIgnoresUsage(before: Database, after: Database, org: Id)
    requires after == before.(usage := after.usage)
    ensures Recount(after, org) == Recount(before, org)
  {
  }

  lemma LockedThenSet(db: Database, org: Id, n: int)
    ensures var locked := Meter.UsageLocked(db, org); locked.(usage := locked.usage[org := n]) == db.(usage := db.usage[org := n])
  {
    hide Recount;
  }

  method RecomputeUsage(sess: Session, org: Id)
    modifies sess`usage
    ensures sess.Tables() == old(sess.Tables()).(usage := old(sess.usage)[org := Recount(old(sess.Tables()), org)])
  {
    hide Recount, Meter.UsageLocked;
    LockUsage(sess, org);
    var total := StorageSize(sess, org);
    LockedThenSet(old(sess.Tables()), org, total);
    RecountIgnoresUsage(old(sess.Tables()), sess.Tables(), org);
    sess.usage := sess.usage[org := total];
  }

  method CheckQuota(cfg: Config, sess: Session, org: Id, count: nat, ceiling: Option<nat>) returns (r: Result<()>)
    modifies sess`usage
    ensures Answers(r, Meter.Admitted(cfg, old(sess.Tables()), org, count, ceiling), sess.Tables())
    ensures sess.Tables() == old(sess.Tables()).(usage := sess.usage)
  {
    hide Recount, Meter.UsageLocked;
    if !cfg.metered { return Ok(()); }
    LockUsage(sess, org);
    if ceiling.None? { return Ok(()); }
    if count >= ceiling.value { return Err(QuotaExceeded); }
    return Ok(());
  }

  // ---------------------------------------------------------------- instances and connections

  method InsertInstance(sess: Session, id: Id, row: Instance)
    modifies sess`used, sess`instances
    ensures sess.Tables() == old(sess.Tables()).(used := old(sess.used) + {id}, instances := old(sess.instances)[id := row])
  {
    sess.used, sess.instances := sess.used + {id}, sess.instances[id := row];
  }

  method InsertConnection(sess: Session, id: Id, row: Connection)
    modifies sess`used, sess`connections
    ensures sess.Tables() == old(sess.Tables()).(used := old(sess.used) + {id}, connections := old(sess.connections)[id := row])
  {
    sess.used, sess.connections := sess.used + {id}, sess.connections[id := row];
  }

  method InstanceCreate(cfg: Config, sess: Session, a: Id, op: SlotOp) returns (r: Result<()>)
    requires a in sess.principals && op.CreateInstance?
    modifies sess
    ensures Answers(r, InstanceCreated(cfg, old(sess.Tables()), a, op), sess.Tables())
  {
    hide Meter.Admitted, Meter.LimitsFor, Meter.ActiveInstances;
    var org := sess.principals[a].org;
    :- Need(sess.principals[a].admin, Denied);
    var db := sess.Tables();
    var _ :- CheckQuota(cfg, sess, org, |Meter.ActiveInstances(db, org)|, Meter.LimitsFor(cfg, db.accounts, org).maxInstances);
    :- Need(!exists i :: i in sess.instances && sess.instances[i].org == org && sess.instances[i].name == op.name, Conflict);
    :- Need(op.id !in sess.used, Conflict);
    InsertInstance(sess, op.id, Instance(org, op.name, true, op.now));
    return Ok(());
  }

  method ConnectionIssue(cfg: Config, sess: Session, a: Id, op: SlotOp) returns (r: Result<()>)
    requires a in sess.principals && op.Issue?
    modifies sess
    ensures Answers(r, Issued(cfg, old(sess.Tables()), a, op), sess.Tables())
  {
    hide Meter.Admitted, Meter.LimitsFor, Meter.ActiveConnections, PeopleOps.Member;
    var org := sess.principals[a].org;
    :- Need(op.owner == a || sess.principals[a].admin, Denied);
    var db := sess.Tables();
    :- Need(PeopleOps.Member(db, org, op.owner), NotFound);
    :- Need(op.instance in sess.instances && sess.instances[op.instance].org == org && sess.instances[op.instance].active, NotFound);
    var _ :- CheckQuota(cfg, sess, org, |Meter.ActiveConnections(db, org)|, Meter.LimitsFor(cfg, db.accounts, org).maxConnections);
    :- Need(op.id !in sess.used && !exists c :: c in sess.connections && sess.connections[c].digest == op.digest, Conflict);
    InsertConnection(sess, op.id, Connection(org, op.owner, op.instance, op.digest, true, op.now));
    return Ok(());
  }

  method ConnectionRevoke(sess: Session, a: Id, op: SlotOp) returns (r: Result<()>)
    requires a in sess.principals && op.Revoke?
    modifies sess
    ensures Answers(r, Revoked(old(sess.Tables()), a, op), sess.Tables())
  {
    var org := sess.principals[a].org;
    :- Need(op.connection in sess.connections && sess.connections[op.connection].org == org, NotFound);
    var row := sess.connections[op.connection];
    :- Need(row.owner == a || sess.principals[a].admin, Denied);
    :- Need(row.active, InvalidState);
    sess.connections := sess.connections[op.connection := row.(active := false)];
    return Ok(());
  }
}
