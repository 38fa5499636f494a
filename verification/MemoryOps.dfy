/** Shared memory: proposals, reviews, deletion; and messages. */
module MemoryOps {
  import opened Base
  import opened Tables
  import opened ScopeTree
  import PayloadScan
  import PeopleOps
  import ScopeOps
  import Meter

  datatype MemoryOp =
    | Propose(scope: Id, key: string, content: string, expected: nat, epistemic: string, source: string, id: Id)
    | Review(proposal: Id, accept: bool)
    | DeleteKey(scope: Id, key: string)
    | Send(scope: Id, recipient: Id, body: string, id: Id)

  /** What is scanned of a proposal: a dictionary of its key, content and source. */
  function MemoryPayload(key: string, content: string, source: string): PayloadScan.Value {
    PayloadScan.Object([PayloadScan.Text("key"), PayloadScan.Text("content"), PayloadScan.Text("source")],
                       [PayloadScan.Str(key), PayloadScan.Str(content), PayloadScan.Str(source)])
  }

  function MemoryFindings(cfg: Config, key: string, content: string, source: string): Findings {
    PayloadScan.Findings(cfg.scan, MemoryPayload(key, content, source))
  }

  ghost function Proposed(cfg: Config, db: Database, a: Id, op: MemoryOp): (r: Result<Database>)
    requires a in db.principals && op.Propose?
    ensures r.Ok? ==> r.value == db.(used := r.value.used, proposals := r.value.proposals, usage := r.value.usage) && db.used <= r.value.used
  {
    var org := db.principals[a].org;
    var scope :- GetScope(db, org, op.scope);
    :- RequireRole(db, a, op.scope, Writer);
    var findings := MemoryFindings(cfg, op.key, op.content, op.source);
    var row := Proposal(org, op.scope, op.key, op.content, op.expected, op.epistemic, op.source, a, Pending,
                        findings, findings != {}, None);
    var charged :- Meter.Charged(cfg, db, org, ProposalBytes(row));
    :- ScopeOps.NewId(db, op.id);
    Ok(charged.(used := db.used + {op.id}, proposals := db.proposals[op.id := row]))
  }

  /** The version that the canonical row carries; 0 when there is none. */
  function CurrentVersion(db: Database, sid: Id, key: string): nat {
    if (sid, key) in db.records then db.records[(sid, key)].version else 0
  }

  /** A proposal leaves "pending". */
  function Settled(db: Database, pid: Id, status: ProposalStatus, reviewer: Id): Database
    requires pid in db.proposals
  {
    db.(proposals := db.proposals[pid := db.proposals[pid].(status := status, reviewer := Some(reviewer))])
  }

  /** The proposal becomes the next version and the canonical value. */
  function Promoted(db: Database, pid: Id): Database
    requires pid in db.proposals
  {
    var p := db.proposals[pid];
    var next := CurrentVersion(db, p.scope, p.key) + 1;
    db.(records := db.records[(p.scope, p.key) := Record(p.org, p.content, next, p.epistemic, p.source, p.proposer)],
        versions := db.versions[(p.scope, p.key, next) := Version(p.org, p.content, p.epistemic, p.source, pid, p.proposer)])
  }

  /** Who may review a proposal, and whether it is still open. */
  function MayReview(db: Database, a: Id, pid: Id): Outcome
    requires a in db.principals
  {
    if !(pid in db.proposals && db.proposals[pid].org == db.principals[a].org) then Fail(NotFound)
    else
      var p := db.proposals[pid];
      var scope := GetScope(db, p.org, p.scope);
      if scope.Err? then Fail(scope.code)
      else if RequireRole(db, a, p.scope, Reviewer).Fail? then RequireRole(db, a, p.scope, Reviewer)
      else if p.proposer == a && scope.value.kind != Personal then Fail(SelfReview)
      else Need(p.status == Pending, InvalidState)
  }

  /** A charged promotion: on a refused charge the proposal stays open. */
  ghost function AcceptedInto(cfg: Config, db: Database, a: Id, pid: Id): (r: Result<Database>)
    requires pid in db.proposals
    ensures r.Ok? ==> r.value == db.(records := r.value.records, versions := r.value.versions,
                                     proposals := r.value.proposals, usage := r.value.usage)
  {
    var p := db.proposals[pid];
    var charged := Meter.Charged(cfg, db, p.org, Bytes(p.content) + Bytes(p.source));
    if charged.Err? then charged else Ok(Promoted(Settled(charged.value, pid, Accepted, a), pid))
  }

  /** The decision itself: a rejection, a version conflict, or a promotion. */
  ghost function Decided(cfg: Config, db: Database, a: Id, pid: Id, accept: bool): (r: Result<Database>)
    requires pid in db.proposals
    ensures r.Ok? ==> r.value == db.(locks := r.value.locks, records := r.value.records, versions := r.value.versions,
                                     proposals := r.value.proposals, usage := r.value.usage)
  {
    var p := db.proposals[pid];
    var held := db.(locks := db.locks + {(p.scope, p.key)});
    if !accept then Ok(Settled(db, pid, Rejected, a))
    else if p.quarantined then Err(Code.Quarantined)
    else if p.expected != CurrentVersion(db, p.scope, p.key) then Ok(Settled(held, pid, Conflicted, a))
    else AcceptedInto(cfg, held, a, pid)
  }

  ghost function Reviewed(cfg: Config, db: Database, a: Id, op: MemoryOp): (r: Result<Database>)
    requires a in db.principals && op.Review?
    ensures r.Ok? ==> r.value == db.(locks := r.value.locks, records := r.value.records, versions := r.value.versions,
                                     proposals := r.value.proposals, usage := r.value.usage)
  {
    var gate := MayReview(db, a, op.proposal);
    if gate.Fail? then Err(gate.code) else Decided(cfg, db, a, op.proposal, op.accept)
  }

  /** The rows of one memory key deleted, with its lock. */
  function KeyPurged(db: Database, org: Id, sid: Id, key: string): Database {
    db.(records := map k | k in db.records && !(k == (sid, key) && db.records[k].org == org) :: db.records[k],
        versions := map k | k in db.versions && !(k.0 == sid && k.1 == key && db.versions[k].org == org) :: db.versions[k],
        proposals := map i | i in db.proposals &&
                       !(db.proposals[i].scope == sid && db.proposals[i].key == key && db.proposals[i].org == org) :: db.proposals[i],
        locks := db.locks - {(sid, key)})
  }

  predicate KeyExists(db: Database, org: Id, sid: Id, key: string) {
    || ((sid, key) in db.records && db.records[(sid, key)].org == org)
    || (exists k :: k in db.versions && k.0 == sid && k.1 == key && db.versions[k].org == org)
    || (exists i :: i in db.proposals && db.proposals[i].scope == sid && db.proposals[i].key == key && db.proposals[i].org == org)
  }

  ghost function KeyDeleted(cfg: Config, db: Database, a: Id, op: MemoryOp): (r: Result<Database>)
    requires a in db.principals && op.DeleteKey?
    ensures r.Ok? ==> r.value == db.(locks := r.value.locks, records := r.value.records, versions := r.value.versions,
                                     proposals := r.value.proposals, usage := r.value.usage)
  {
    var org := db.principals[a].org;
    var scope :- GetScope(db, org, op.scope);
    :- RequireRole(db, a, op.scope, Admin);
    var may :- Permitted(db, a, op.scope, Delete);
    :- Need(may, Denied);
    :- Need(KeyExists(db, org, op.scope, op.key), NotFound);
    Ok(Meter.Recounted(cfg, KeyPurged(db, org, op.scope, op.key), org))
  }

  ghost function Sent(cfg: Config, db: Database, a: Id, op: MemoryOp): (r: Result<Database>)
    requires a in db.principals && op.Send?
    ensures r.Ok? ==> r.value == db.(used := r.value.used, messages := r.value.messages, usage := r.value.usage) && db.used <= r.value.used
  {
    var org := db.principals[a].org;
    var scope :- GetScope(db, org, op.scope);
    :- RequireRole(db, a, op.scope, Writer);
    :- Need(PeopleOps.Member(db, org, op.recipient), NotFound);
    var role :- RoleFor(db, op.recipient, op.scope);
    :- Need(role.Some?, Denied);
    var findings := cfg.scan(op.body);
    var row := Message(org, op.scope, a, op.recipient, op.body, findings, findings != {});
    var charged :- Meter.Charged(cfg, db, org, MessageBytes(row));
    :- ScopeOps.NewId(db, op.id);
    Ok(charged.(used := db.used + {op.id}, messages := db.messages[op.id := row]))
  }

  ghost function Performed(cfg: Config, db: Database, a: Id, op: MemoryOp): Result<Database>
    requires a in db.principals
  {
    match op
    case Propose(_, _, _, _, _, _, _) => Proposed(cfg, db, a, op)
    case Review(_, _) => Reviewed(cfg, db, a, op)
    case DeleteKey(_, _) => KeyDeleted(cfg, db, a, op)
    case Send(_, _, _, _) => Sent(cfg, db, a, op)
  }
}
