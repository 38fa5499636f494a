/** From a proposal to a canonical memory, and whom a message reaches (distributedai/persistence/workspace.py). */
module MemoryEffects {
  import opened Base
  import opened Tables
  import opened ScopeTree
  import opened PlacementProofs
  import PersonalProofs
  import RoleEffects
  import PayloadScan
  import PeopleOps
  import MemoryOps
  import Meter

  // ---------------------------------------------------------------- proposing, then reviewing

  ghost predicate CleanProposal(cfg: Config, op: MemoryOps.MemoryOp)
    requires op.Propose?
  {
    PayloadScan.Clean(cfg.scan, MemoryOps.MemoryPayload(op.key, op.content, op.source))
  }

  /** A proposal changes no canonical memory, no version and no other proposal. It is pending, and quarantined
      exactly if its key, content and source are not clean in full. */
  lemma ProposalAwaits(cfg: Config, db: Database, a: Id, op: MemoryOps.MemoryOp)
    requires Known(db) && a in db.principals && op.Propose? && MemoryOps.Proposed(cfg, db, a, op).Ok?
    ensures var d := MemoryOps.Proposed(cfg, db, a, op).value;
      && d.records == db.records && d.versions == db.versions
      && op.id !in db.proposals && op.id in d.proposals && d.proposals - {op.id} == db.proposals
      && var p := d.proposals[op.id];
         && p.scope == op.scope && p.key == op.key && p.content == op.content && p.expected == op.expected
         && p.org == db.principals[a].org && p.proposer == a && p.status == Pending
         && (p.quarantined <==> !CleanProposal(cfg, op))
  {
    hide RequireRole, Meter.Charged, ProposalBytes, PayloadScan.Findings, PayloadScan.Clean;
    PayloadScan.NoFindingsExactlyWhenClean(cfg.scan, MemoryOps.MemoryPayload(op.key, op.content, op.source));
  }

  lemma ProposedInScope(cfg: Config, db: Database, a: Id, op: MemoryOps.MemoryOp)
    requires a in db.principals && op.Propose? && MemoryOps.Proposed(cfg, db, a, op).Ok?
    ensures op.scope in db.scopes && db.scopes[op.scope].org == db.principals[a].org
    ensures var d := MemoryOps.Proposed(cfg, db, a, op).value;
      d == db.(used := d.used, proposals := d.proposals, usage := d.usage)
  {
    hide RequireRole, Meter.Charged, ProposalBytes, MemoryOps.MemoryFindings;
  }

  /** The proposal is settled with this status. */
  predicate SettledAs(db: Database, pid: Id, status: ProposalStatus) {
    pid in db.proposals && db.proposals[pid].status == status
  }

  /** The content is the canonical value of the key, under this version, and no other canonical value changed. */
  ghost predicate BecameCanonical(before: Database, after: Database, k: (Id, string), content: string, version: nat) {
    && k in after.records && after.records[k].content == content && after.records[k].version == version
    && (k.0, k.1, version) in after.versions && after.versions[(k.0, k.1, version)].content == content
    && after.records - {k} == before.records - {k}
  }

  /** What comes of accepting an open proposal. */
  ghost predicate Outcome(db: Database, b: Id, pid: Id, r: Result<Database>)
    requires pid in db.proposals && db.proposals[pid].scope in db.scopes
  {
    var p := db.proposals[pid];
    if p.proposer == b && db.scopes[p.scope].kind != Personal then r == Err(SelfReview)
    else if p.quarantined then r == Err(Quarantined)
    else if p.expected != MemoryOps.CurrentVersion(db, p.scope, p.key) then
      r.Ok? && r.value.records == db.records && r.value.versions == db.versions && SettledAs(r.value, pid, Conflicted)
    else
      && (r.Err? ==> r == Err(QuotaExceeded))
      && (r.Ok? ==> SettledAs(r.value, pid, Accepted) && BecameCanonical(db, r.value, (p.scope, p.key), p.content, p.expected + 1))
  }

  lemma PromotedCanonical(db: Database, pid: Id, reviewer: Id)
    requires pid in db.proposals
    requires db.proposals[pid].expected == MemoryOps.CurrentVersion(db, db.proposals[pid].scope, db.proposals[pid].key)
    ensures var p := db.proposals[pid]; var d := MemoryOps.Promoted(MemoryOps.Settled(db, pid, Accepted, reviewer), pid);
      SettledAs(d, pid, Accepted) && BecameCanonical(db, d, (p.scope, p.key), p.content, p.expected + 1)
  {
  }

  lemma AcceptedCanonical(cfg: Config, db: Database, b: Id, pid: Id)
    requires pid in db.proposals
    requires db.proposals[pid].expected == MemoryOps.CurrentVersion(db, db.proposals[pid].scope, db.proposals[pid].key)
    ensures var r := MemoryOps.AcceptedInto(cfg, db, b, pid); var p := db.proposals[pid];
      && (r.Err? ==> r == Err(QuotaExceeded))
      && (r.Ok? ==> SettledAs(r.value, pid, Accepted) && BecameCanonical(db, r.value, (p.scope, p.key), p.content, p.expected + 1))
  {
    hide Meter.Charged, MemoryOps.Promoted, BecameCanonical, SettledAs, MemoryOps.CurrentVersion;
    var p := db.proposals[pid];
    var n := Bytes(p.content) + Bytes(p.source);
    ChargeCode(cfg, db, p.org, n);
    if Meter.Charged(cfg, db, p.org, n).Ok? {
      var charged := Meter.Charged(cfg, db, p.org, n).value;
      SameVersion(db, charged, p.scope, p.key);
      PromotedCanonical(charged, pid, b);
      SameCanonical(db, charged, MemoryOps.Promoted(MemoryOps.Settled(charged, pid, Accepted, b), pid), (p.scope, p.key), p.content, p.expected + 1);
    }
  }

  lemma SettledMemory(db: Database, pid: Id, status: ProposalStatus, b: Id)
    requires pid in db.proposals
    ensures var d := MemoryOps.Settled(db, pid, status, b);
      d.records == db.records && d.versions == db.versions && SettledAs(d, pid, status)
  {
  }

  lemma ReviewGate(db: Database, b: Id, pid: Id)
    requires pid in db.proposals && db.proposals[pid].status == Pending && b in db.principals
    requires db.proposals[pid].org == db.principals[b].org
    requires db.proposals[pid].scope in db.scopes && db.scopes[db.proposals[pid].scope].org == db.proposals[pid].org
    requires RoleEffects.Reaches(db, b, db.proposals[pid].scope, Reviewer)
    ensures MemoryOps.MayReview(db, b, pid) ==
      if db.proposals[pid].proposer == b && db.scopes[db.proposals[pid].scope].kind != Personal then Fail(SelfReview) else Pass
  {
    hide RequireRole;
  }

  lemma AcceptDecides(cfg: Config, db: Database, b: Id, pid: Id)
    requires pid in db.proposals && db.proposals[pid].status == Pending && b in db.principals
    requires db.proposals[pid].org == db.principals[b].org
    requires db.proposals[pid].scope in db.scopes && db.scopes[db.proposals[pid].scope].org == db.proposals[pid].org
    requires RoleEffects.Reaches(db, b, db.proposals[pid].scope, Reviewer)
    ensures Outcome(db, b, pid, MemoryOps.Reviewed(cfg, db, b, MemoryOps.Review(pid, true)))
  {
    hide RequireRole, RoleEffects.Reaches, MemoryOps.MayReview, MemoryOps.AcceptedInto, MemoryOps.Settled, BecameCanonical, SettledAs,
         MemoryOps.CurrentVersion;
    ReviewGate(db, b, pid);
    var p := db.proposals[pid];
    var held := db.(locks := db.locks + {(p.scope, p.key)});
    SameVersion(db, held, p.scope, p.key);
    SettledMemory(held, pid, Conflicted, b);
    if p.expected == MemoryOps.CurrentVersion(db, p.scope, p.key) {
      AcceptedCanonical(cfg, held, b, pid);
      var r := MemoryOps.AcceptedInto(cfg, held, b, pid);
      if r.Ok? { SameCanonical(db, held, r.value, (p.scope, p.key), p.content, p.expected + 1); }
    }
  }

  lemma SameVersion(before: Database, after: Database, s: Id, key: string)
    requires after.records == before.records
    ensures MemoryOps.CurrentVersion(after, s, key) == MemoryOps.CurrentVersion(before, s, key)
  {
  }

  lemma SameCanonical(before: Database, middle: Database, after: Database, k: (Id, string), content: string, version: nat)
    requires middle.records == before.records && BecameCanonical(middle, after, k, content, version)
    ensures BecameCanonical(before, after, k, content, version)
  {
  }

  /** What comes of accepting a proposal that was just made. The proposer itself is refused outside personal
      scopes; a proposal that is not clean is refused; one whose expected version is not the current one
      changes no memory and is closed; any other becomes the canonical value, one version on, unless the
      charge is refused. */
  ghost predicate Answer(cfg: Config, db: Database, a: Id, op: MemoryOps.MemoryOp, b: Id, r: Result<Database>)
    requires op.Propose? && op.scope in db.scopes
  {
    if a == b && db.scopes[op.scope].kind != Personal then r == Err(SelfReview)
    else if !CleanProposal(cfg, op) then r == Err(Quarantined)
    else if op.expected != MemoryOps.CurrentVersion(db, op.scope, op.key) then
      r.Ok? && r.value.records == db.records && r.value.versions == db.versions && SettledAs(r.value, op.id, Conflicted)
    else
      && (r.Err? ==> r == Err(QuotaExceeded))
      && (r.Ok? ==> SettledAs(r.value, op.id, Accepted) && BecameCanonical(db, r.value, (op.scope, op.key), op.content, op.expected + 1))
  }

  /** A proposal, then the acceptance of a reviewer of the scope, whoever it is. */
  lemma ProposeThenAccept(cfg: Config, db: Database, a: Id, op: MemoryOps.MemoryOp, b: Id)
    requires Known(db) && a in db.principals && op.Propose? && MemoryOps.Proposed(cfg, db, a, op).Ok?
    requires b in db.principals && db.principals[b].org == db.principals[a].org
    requires op.scope in db.scopes && RoleEffects.Reaches(db, b, op.scope, Reviewer)
    ensures var d := MemoryOps.Proposed(cfg, db, a, op).value;
      b in d.principals && Answer(cfg, db, a, op, b, MemoryOps.Reviewed(cfg, d, b, MemoryOps.Review(op.id, true)))
  {
    hide MemoryOps.Proposed, MemoryOps.Reviewed, RequireRole, CleanProposal, BecameCanonical, SettledAs, MemoryOps.CurrentVersion;
    var d := MemoryOps.Proposed(cfg, db, a, op).value;
    ProposalAwaits(cfg, db, a, op);
    ProposedInScope(cfg, db, a, op);
    SameStanding(db, d, b, op.scope);
    SameVersion(db, d, op.scope, op.key);
    AcceptDecides(cfg, d, b, op.id);
    var r := MemoryOps.Reviewed(cfg, d, b, MemoryOps.Review(op.id, true));
    if r.Ok? && BecameCanonical(d, r.value, (op.scope, op.key), op.content, op.expected + 1) {
      SameCanonical(db, d, r.value, (op.scope, op.key), op.content, op.expected + 1);
    }
  }

  lemma SameStanding(db: Database, d: Database, p: Id, s: Id)
    requires d.principals == db.principals && d.scopes == db.scopes && d.owners == db.owners && d.grants == db.grants
    requires p in db.principals && s in db.scopes
    ensures RequireRole(d, p, s, Reviewer) == RequireRole(db, p, s, Reviewer)
    ensures RoleFor(d, p, s) == RoleFor(db, p, s)
  {
    hide Chain, GrantedRole;
    RoleEffects.SameTablesRole(d, db, p, s);
  }

  lemma ChargeCode(cfg: Config, db: Database, org: Id, n: nat)
    ensures Meter.Charged(cfg, db, org, n).Err? ==> Meter.Charged(cfg, db, org, n) == Err(QuotaExceeded)
  {
    hide Recount, Meter.LimitsFor;
  }

  // ---------------------------------------------------------------- messages

  /** A message goes to an active member that has a role on its scope, as its sender has; in a personal scope
      that is the owner writing to itself. It is held back exactly if the scan finds something, and no other
      message changes. */
  lemma SentReachesMember(cfg: Config, db: Database, a: Id, op: MemoryOps.MemoryOp)
    requires Known(db) && a in db.principals && op.Send? && MemoryOps.Sent(cfg, db, a, op).Ok?
    ensures var d := MemoryOps.Sent(cfg, db, a, op).value;
      && op.id !in db.messages && op.id in d.messages && d.messages - {op.id} == db.messages
      && var m := d.messages[op.id];
         && m.sender == a && m.recipient == op.recipient && m.scope == op.scope && m.body == op.body
         && (m.quarantined <==> cfg.scan(op.body) != {})
         && m.scope in d.scopes && m.recipient in d.principals
         && PeopleOps.Member(d, d.scopes[m.scope].org, m.recipient)
         && RoleEffects.HasRole(d, m.sender, m.scope) && RoleEffects.HasRole(d, m.recipient, m.scope)
         && (PersonalProofs.IsPersonal(d.scopes, m.scope) && m.scope in d.owners ==>
               m.sender == m.recipient == d.owners[m.scope].principal)
  {
    hide RoleFor, Meter.Charged, MessageBytes;
    var d := MemoryOps.Sent(cfg, db, a, op).value;
    SameStanding(db, d, a, op.scope);
    SameStanding(db, d, op.recipient, op.scope);
    if PersonalProofs.IsPersonal(d.scopes, op.scope) && op.scope in d.owners {
      PersonalProofs.OnlyOwnerHasRole(d, a, op.scope);
      PersonalProofs.OnlyOwnerHasRole(d, op.recipient, op.scope);
    }
  }
}
