/** Proposals, reviews, deletions and messages, step by step on a session. */
module MemoryStore {
  import opened Base
  import opened Tables
  import opened ScopeTree
  import opened Sessions
  import opened MemoryOps
  import PayloadScan
  import BillingEngines
  import ScopeStore
  import Meter

  method InsertProposal(sess: Session, id: Id, row: Proposal)
    modifies sess`used, sess`proposals
    ensures sess.Tables() == old(sess.Tables()).(used := old(sess.used) + {id}, proposals := old(sess.proposals)[id := row])
  {
    sess.used, sess.proposals := sess.used + {id}, sess.proposals[id := row];
  }

  method InsertMessage(sess: Session, id: Id, row: Message)
    modifies sess`used, sess`messages
    ensures sess.Tables() == old(sess.Tables()).(used := old(sess.used) + {id}, messages := old(sess.messages)[id := row])
  {
    sess.used, sess.messages := sess.used + {id}, sess.messages[id := row];
  }

  method MemoryPropose(cfg: Config, sess: Session, a: Id, op: MemoryOp) returns (r: Result<()>)
    requires a in sess.principals && op.Propose?
    modifies sess
    ensures Answers(r, Proposed(cfg, old(sess.Tables()), a, op), sess.Tables())
  {
    hide RequireRole, MemoryPayload, PayloadScan.Findings, Meter.Charged, ProposalBytes, PayloadScan.Clean;
    var org := sess.principals[a].org;
    var scope :- FindScope(sess, org, op.scope);
    :- Require(sess, a, op.scope, Writer);
    var findings := PayloadScan.ScanPayload(cfg.scan, MemoryPayload(op.key, op.content, op.source));
    var row := Proposal(org, op.scope, op.key, op.content, op.expected, op.epistemic, op.source, a, Pending,
                        findings, findings != {}, None);
    var _ :- BillingEngines.ChargeStorage(cfg, sess, org, ProposalBytes(row));
    :- Need(op.id !in sess.used, Conflict);
    InsertProposal(sess, op.id, row);
    return Ok(());
  }

  /** The conditional update that lets exactly one reviewer win. */
  method TransitionProposal(sess: Session, pid: Id, status: ProposalStatus, reviewer: Id) returns (won: bool)
    requires pid in sess.proposals
    modifies sess`proposals
    ensures won <==> old(sess.proposals[pid].status) == Pending
    ensures sess.Tables() == if won then Settled(old(sess.Tables()), pid, status, reviewer) else old(sess.Tables())
  {
    won := sess.proposals[pid].status == Pending;
    if won {
      sess.proposals := sess.proposals[pid := sess.proposals[pid].(status := status, reviewer := Some(reviewer))];
    }
  }

  /** The mutex row of one (scope, key), created on first use. */
  method AcquireMutex(sess: Session, sid: Id, key: string)
    modifies sess`locks
    ensures sess.Tables() == old(sess.Tables()).(locks := old(sess.locks) + {(sid, key)})
  {
    if (sid, key) !in sess.locks { sess.locks := sess.locks + {(sid, key)}; }
    assert sess.locks == old(sess.locks) + {(sid, key)};
  }

  /** Write the canonical row, new or changed in place, and the next version beside it. */
  method Promote(sess: Session, pid: Id)
    requires pid in sess.proposals
    modifies sess`records, sess`versions
    ensures sess.Tables() == Promoted(old(sess.Tables()), pid)
  {
    var p := sess.proposals[pid];
    var k := (p.scope, p.key);
    var version := 1;
    if k !in sess.records {
      sess.records := sess.records[k := Record(p.org, p.content, 1, p.epistemic, p.source, p.proposer)];
    } else {
      var canonical := sess.records[k];
      version := canonical.version + 1;
      sess.records := sess.records[k := Record(p.org, p.content, version, p.epistemic, p.source, p.proposer)];
    }
    sess.versions := sess.versions[(p.scope, p.key, version) := Version(p.org, p.content, p.epistemic, p.source, pid, p.proposer)];
  }

  method Accept(cfg: Config, sess: Session, a: Id, pid: Id) returns (r: Result<()>)
    requires pid in sess.proposals && sess.proposals[pid].status == Pending
    modifies sess
    ensures Answers(r, AcceptedInto(cfg, old(sess.Tables()), a, pid), sess.Tables())
  {
    hide Meter.Charged, Bytes, Promoted, Settled;
    var p := sess.proposals[pid];
    var _ :- BillingEngines.ChargeStorage(cfg, sess, p.org, Bytes(p.content) + Bytes(p.source));
    var won := TransitionProposal(sess, pid, Accepted, a);
    if !won { return Err(Conflict); }
    assert pid in sess.proposals by { StillThere(old(sess.Tables()), sess.usage, pid, a); }
    Promote(sess, pid);
    return Ok(());
  }

  lemma StillThere(db: Database, usage: map<Id, int>, pid: Id, a: Id)
    requires pid in db.proposals
    ensures pid in Settled(db.(usage := usage), pid, Accepted, a).proposals
  {
  }

  method Decide(cfg: Config, sess: Session, a: Id, pid: Id, accept: bool) returns (r: Result<()>)
    requires pid in sess.proposals && sess.proposals[pid].status == Pending
    modifies sess
    ensures Answers(r, Decided(cfg, old(sess.Tables()), a, pid, accept), sess.Tables())
  {
    hide AcceptedInto, Settled;
    var p := sess.proposals[pid];
    if !accept {
      var won := TransitionProposal(sess, pid, Rejected, a);
      if !won { return Err(Conflict); }
      return Ok(());
    }
    if p.quarantined { return Err(Code.Quarantined); }
    AcquireMutex(sess, p.scope, p.key);
    var current := if (p.scope, p.key) in sess.records then sess.records[(p.scope, p.key)].version else 0;
    if p.expected != current {
      var won := TransitionProposal(sess, pid, Conflicted, a);
      if !won { return Err(Conflict); }
      return Ok(());
    }
    r := Accept(cfg, sess, a, pid);
  }

  method MemoryReview(cfg: Config, sess: Session, a: Id, op: MemoryOp) returns (r: Result<()>)
    requires a in sess.principals && op.Review?
    modifies sess
    ensures Answers(r, Reviewed(cfg, old(sess.Tables()), a, op), sess.Tables())
  {
    hide RequireRole, Decided;
    var org := sess.principals[a].org;
    if !(op.proposal in sess.proposals && sess.proposals[op.proposal].org == org) { return Err(NotFound); }
    var p := sess.proposals[op.proposal];
    var scope :- FindScope(sess, org, p.scope);
    :- Require(sess, a, p.scope, Reviewer);
    if p.proposer == a && scope.kind != Personal { return Err(SelfReview); }
    if p.status != Pending { return Err(InvalidState); }
    r := Decide(cfg, sess, a, op.proposal, op.accept);
  }

  method DeleteKeyRows(sess: Session, org: Id, sid: Id, key: string)
    modifies sess`records, sess`versions, sess`proposals, sess`locks
    ensures sess.Tables() == KeyPurged(old(sess.Tables()), org, sid, key)
  {
    ScopeStore.RewriteMemory(sess,
      map k | k in sess.records && !(k == (sid, key) && sess.records[k].org == org) :: sess.records[k],
      map k | k in sess.versions && !(k.0 == sid && k.1 == key && sess.versions[k].org == org) :: sess.versions[k],
      map i | i in sess.proposals &&
        !(sess.proposals[i].scope == sid && sess.proposals[i].key == key && sess.proposals[i].org == org) :: sess.proposals[i]);
    sess.locks := sess.locks - {(sid, key)};
  }

  /** Rows were removed exactly when the key existed. */
  lemma RemovedSome(db: Database, org: Id, sid: Id, key: string)
    ensures var d := KeyPurged(db, org, sid, key);
      KeyExists(db, org, sid, key) <==> !(d.records == db.records && d.versions == db.versions && d.proposals == db.proposals)
  {
    if KeyExists(db, org, sid, key) { SomeRemoved(db, org, sid, key); } else { NoneRemoved(db, org, sid, key); }
  }

  lemma SomeRemoved(db: Database, org: Id, sid: Id, key: string)
    requires KeyExists(db, org, sid, key)
    ensures var d := KeyPurged(db, org, sid, key); !(d.records == db.records && d.versions == db.versions && d.proposals == db.proposals)
  {
    var d := KeyPurged(db, org, sid, key);
    if (sid, key) in db.records && db.records[(sid, key)].org == org { assert (sid, key) !in d.records; }
    else if k :| k in db.versions && k.0 == sid && k.1 == key && db.versions[k].org == org { assert k !in d.versions; }
    else {
      var i :| i in db.proposals && db.proposals[i].scope == sid && db.proposals[i].key == key && db.proposals[i].org == org;
      assert i !in d.proposals;
    }
  }

  lemma NoneRemoved(db: Database, org: Id, sid: Id, key: string)
    requires !KeyExists(db, org, sid, key)
    ensures var d := KeyPurged(db, org, sid, key); d.records == db.records && d.versions == db.versions && d.proposals == db.proposals
  {
  }

  method MemoryDelete(cfg: Config, sess: Session, a: Id, op: MemoryOp) returns (r: Result<()>)
    requires a in sess.principals && op.DeleteKey?
    modifies sess
    ensures Answers(r, KeyDeleted(cfg, old(sess.Tables()), a, op), sess.Tables())
  {
    hide RequireRole, Permitted, KeyExists, KeyPurged, Recount;
    var org := sess.principals[a].org;
    var scope :- FindScope(sess, org, op.scope);
    :- Require(sess, a, op.scope, Admin);
    var flags :- PermissionFlags(sess, a, op.scope);
    :- Need(flags.1, Denied);
    var before := sess.Tables();
    DeleteKeyRows(sess, org, op.scope, op.key);
    RemovedSome(before, org, op.scope, op.key);
    var removed := !(sess.records == before.records && sess.versions == before.versions && sess.proposals == before.proposals);
    :- Need(removed, NotFound);
    if cfg.metered { BillingEngines.RecomputeUsage(sess, org); }
    return Ok(());
  }

  method MessageSend(cfg: Config, sess: Session, a: Id, op: MemoryOp) returns (r: Result<()>)
    requires a in sess.principals && op.Send?
    modifies sess
    ensures Answers(r, Sent(cfg, old(sess.Tables()), a, op), sess.Tables())
  {
    hide RequireRole, RoleFor, Meter.Charged, MessageBytes;
    var org := sess.principals[a].org;
    var scope :- FindScope(sess, org, op.scope);
    :- Require(sess, a, op.scope, Writer);
    :- Need(op.recipient in sess.principals && sess.principals[op.recipient].org == org && sess.principals[op.recipient].active,
            NotFound);
    var role :- RoleOn(sess, op.recipient, op.scope);
    :- Need(role.Some?, Denied);
    var findings := cfg.scan(op.body);
    var row := Message(org, op.scope, a, op.recipient, op.body, findings, findings != {});
    var _ :- BillingEngines.ChargeStorage(cfg, sess, org, MessageBytes(row));
    :- Need(op.id !in sess.used, Conflict);
    InsertMessage(sess, op.id, row);
    return Ok(());
  }

  method Perform(cfg: Config, sess: Session, a: Id, op: MemoryOp) returns (r: Result<()>)
    requires a in sess.principals
    modifies sess
    ensures Answers(r, Performed(cfg, old(sess.Tables()), a, op), sess.Tables())
  {
    hide Proposed, Reviewed, KeyDeleted, Sent;
    match op
    case Propose(_, _, _, _, _, _, _) => r := MemoryPropose(cfg, sess, a, op);
    case Review(_, _) => r := MemoryReview(cfg, sess, a, op);
    case DeleteKey(_, _) => r := MemoryDelete(cfg, sess, a, op);
    case Send(_, _, _, _) => r := MessageSend(cfg, sess, a, op);
  }
}
