/** The version ledger: canonical rows, their history, and the proposals behind it. */
module LedgerProofs {
  import opened Base
  import opened Tables
  import opened ScopeTree
  import opened PlacementProofs
  import PayloadScan
  import ScopeOps
  import MemoryOps
  import Meter

  type Records = map<(Id, string), Record>
  type Versions = map<(Id, string, nat), Version>
  type Proposals = map<Id, Proposal>

  /** The canonical row `k` has every version from 1 to its own, and equals the last. */
  ghost predicate CompleteAt(k: (Id, string), r: Record, versions: Versions) {
    && r.version >= 1
    && (forall n: nat :: 1 <= n <= r.version ==> (k.0, k.1, n) in versions)
    && Copies(versions[(k.0, k.1, r.version)], r)
  }

  ghost predicate Copies(v: Version, r: Record) {
    v.org == r.org && v.content == r.content && v.source == r.source && v.epistemic == r.epistemic && v.author == r.author
  }

  ghost predicate Complete(records: Records, versions: Versions) {
    forall k :: k in records ==> CompleteAt(k, records[k], versions)
  }

  /** The version `k` is one of the versions of its canonical row. */
  ghost predicate ExactAt(k: (Id, string, nat), records: Records) {
    (k.0, k.1) in records && 1 <= k.2 <= records[(k.0, k.1)].version
  }

  ghost predicate Exact(records: Records, versions: Versions) {
    forall k :: k in versions ==> ExactAt(k, records)
  }

  /** The version came from an accepted proposal of the same content that expected the version before it. */
  ghost predicate FromProposal(k: (Id, string, nat), v: Version, proposals: Proposals) {
    v.proposal in proposals && Becomes(proposals[v.proposal], k, v)
  }

  ghost predicate Becomes(p: Proposal, k: (Id, string, nat), v: Version) {
    && p.status == Accepted && p.scope == k.0 && p.key == k.1 && p.expected + 1 == k.2
    && p.org == v.org && p.content == v.content && p.source == v.source && p.epistemic == v.epistemic && p.proposer == v.author
  }

  ghost predicate Sourced(versions: Versions, proposals: Proposals) {
    forall k :: k in versions ==> FromProposal(k, versions[k], proposals)
  }

  /** An accepted proposal became exactly one version. */
  ghost predicate AppliedAt(i: Id, p: Proposal, versions: Versions) {
    var k := (p.scope, p.key, p.expected + 1);
    k in versions && versions[k].proposal == i
  }

  ghost predicate Applied(versions: Versions, proposals: Proposals) {
    forall i :: i in proposals && proposals[i].status == Accepted ==> AppliedAt(i, proposals[i], versions)
  }

  ghost predicate Ledger(records: Records, versions: Versions, proposals: Proposals) {
    Complete(records, versions) && Exact(records, versions) && Sourced(versions, proposals) && Applied(versions, proposals)
  }

  /** An accepted proposal was clean, and outside personal scopes someone other than its proposer reviewed it. */
  ghost predicate Vetted(scopes: Scopes, proposals: Proposals) {
    forall i :: i in proposals && proposals[i].status == Accepted ==>
      && !proposals[i].quarantined
      && proposals[i].reviewer.Some?
      && (proposals[i].scope in scopes && scopes[proposals[i].scope].kind != Personal ==>
            proposals[i].reviewer.value != proposals[i].proposer)
  }

  /** A proposal is quarantined exactly when the scan of its key, content and source found something. */
  ghost predicate Scanned(cfg: Config, proposals: Proposals) {
    forall i :: i in proposals ==>
      var p := proposals[i];
      p.findings == MemoryOps.MemoryFindings(cfg, p.key, p.content, p.source) && p.quarantined == (p.findings != {})
  }

  ghost predicate Audited(cfg: Config, db: Database) {
    Ledger(db.records, db.versions, db.proposals) && Vetted(db.scopes, db.proposals) && Scanned(cfg, db.proposals)
  }

  // ---------------------------------------------------------------- what the ledger means

  /** Versions and accepted proposals correspond one to one. */
  lemma OneToOne(db: Database, j: (Id, string, nat), k: (Id, string, nat))
    requires Ledger(db.records, db.versions, db.proposals)
    requires j in db.versions && k in db.versions && db.versions[j].proposal == db.versions[k].proposal
    ensures j == k
  {
    assert FromProposal(j, db.versions[j], db.proposals);
    assert FromProposal(k, db.versions[k], db.proposals);
  }

  /** Every canonical memory was scanned clean in full: its key, its content and its source. */
  lemma CanonicalIsClean(cfg: Config, db: Database, k: (Id, string))
    requires Audited(cfg, db) && k in db.records
    ensures PayloadScan.Clean(cfg.scan, MemoryOps.MemoryPayload(k.1, db.records[k].content, db.records[k].source))
  {
    hide PayloadScan.Clean, PayloadScan.Findings, Vetted;
    var r := db.records[k];
    var vk := (k.0, k.1, r.version);
    assert FromProposal(vk, db.versions[vk], db.proposals);
    var p := db.proposals[db.versions[vk].proposal];
    assert !p.quarantined by { CleanWhenAccepted(db, db.versions[vk].proposal); }
    PayloadScan.NoFindingsExactlyWhenClean(cfg.scan, MemoryOps.MemoryPayload(p.key, p.content, p.source));
  }

  lemma CleanWhenAccepted(db: Database, i: Id)
    requires Vetted(db.scopes, db.proposals) && i in db.proposals && db.proposals[i].status == Accepted
    ensures !db.proposals[i].quarantined
  {
  }

  // ---------------------------------------------------------------- proposals

  /** Adding or settling a row that is not accepted leaves the ledger as it was. */
  lemma OpenRowLedger(db: Database, id: Id, row: Proposal)
    requires Ledger(db.records, db.versions, db.proposals)
    requires id in db.proposals ==> db.proposals[id].status != Accepted
    requires row.status != Accepted
    ensures Ledger(db.records, db.versions, db.proposals[id := row])
  {
    hide Complete, Exact, AppliedAt;
    var after := db.proposals[id := row];
    forall k | k in db.versions ensures FromProposal(k, db.versions[k], after) {
      assert FromProposal(k, db.versions[k], db.proposals);
    }
  }

  lemma OpenRowVetted(cfg: Config, db: Database, id: Id, row: Proposal)
    requires Vetted(db.scopes, db.proposals) && Scanned(cfg, db.proposals)
    requires row.status != Accepted
    requires row.findings == MemoryOps.MemoryFindings(cfg, row.key, row.content, row.source)
    requires row.quarantined == (row.findings != {})
    ensures Vetted(db.scopes, db.proposals[id := row]) && Scanned(cfg, db.proposals[id := row])
  {
    hide MemoryOps.MemoryFindings;
  }

  lemma ProposedAudited(cfg: Config, db: Database, a: Id, op: MemoryOps.MemoryOp)
    requires Audited(cfg, db) && Placed(db) && a in db.principals && op.Propose? && MemoryOps.Proposed(cfg, db, a, op).Ok?
    ensures Audited(cfg, MemoryOps.Proposed(cfg, db, a, op).value)
  {
    hide Ledger, Vetted, Scanned, RequireRole, Meter.Charged, MemoryOps.MemoryFindings, ProposalBytes, HasAccessPlaced, PayloadPlaced;
    var findings := MemoryOps.MemoryFindings(cfg, op.key, op.content, op.source);
    var row := Proposal(db.principals[a].org, op.scope, op.key, op.content, op.expected, op.epistemic, op.source, a, Pending,
                        findings, findings != {}, None);
    OpenRowLedger(db, op.id, row);
    OpenRowVetted(cfg, db, op.id, row);
  }

  // ---------------------------------------------------------------- reviews

  /** A refusal settles a pending proposal without touching the ledger. */
  lemma Refused(cfg: Config, db: Database, pid: Id, status: ProposalStatus, reviewer: Id)
    requires Audited(cfg, db) && pid in db.proposals && db.proposals[pid].status == Pending && status != Accepted
    ensures Audited(cfg, MemoryOps.Settled(db, pid, status, reviewer))
  {
    hide Ledger, Vetted, MemoryOps.MemoryFindings;
    var row := db.proposals[pid].(status := status, reviewer := Some(reviewer));
    OpenRowLedger(db, pid, row);
    OpenRowVetted(cfg, db, pid, row);
  }

  /** The next version of a key never exists yet: the uniqueness constraint of the history cannot fire. */
  lemma NextVersionIsFree(db: Database, sid: Id, key: string)
    requires Exact(db.records, db.versions)
    ensures (sid, key, MemoryOps.CurrentVersion(db, sid, key) + 1) !in db.versions
  {
  }

  ghost function Accept(db: Database, pid: Id, reviewer: Id): Database
    requires pid in db.proposals
  {
    MemoryOps.Promoted(MemoryOps.Settled(db, pid, Accepted, reviewer), pid)
  }

  lemma AcceptedComplete(db: Database, pid: Id, reviewer: Id)
    requires Complete(db.records, db.versions) && Exact(db.records, db.versions)
    requires pid in db.proposals
    ensures var d := Accept(db, pid, reviewer); Complete(d.records, d.versions) && Exact(d.records, d.versions)
  {
    var p := db.proposals[pid];
    var d := Accept(db, pid, reviewer);
    var k := (p.scope, p.key);
    var r := Record(p.org, p.content, MemoryOps.CurrentVersion(db, p.scope, p.key) + 1, p.epistemic, p.source, p.proposer);
    NextVersionIsFree(db, p.scope, p.key);
    NextVersion(db.records, db.versions, k, r, d.versions[(p.scope, p.key, r.version)]);
  }

  /** One more version, and the canonical row that copies it. */
  lemma NextVersion(records: Records, versions: Versions, k: (Id, string), r: Record, v: Version)
    requires Complete(records, versions) && Exact(records, versions) && Copies(v, r)
    requires r.version == (if k in records then records[k].version else 0) + 1
    ensures Complete(records[k := r], versions[(k.0, k.1, r.version) := v])
    ensures Exact(records[k := r], versions[(k.0, k.1, r.version) := v])
  {
    var rows, more := records[k := r], versions[(k.0, k.1, r.version) := v];
    forall j | j in rows ensures CompleteAt(j, rows[j], more) {
      if j in records { assert CompleteAt(j, records[j], versions); }
      if j != k { assert (j.0, j.1) != k; }
    }
    forall j | j in more ensures ExactAt(j, rows) {
      if j in versions { assert ExactAt(j, records); }
    }
  }

  lemma AcceptedSourced(db: Database, pid: Id, reviewer: Id)
    requires Exact(db.records, db.versions) && Sourced(db.versions, db.proposals) && Applied(db.versions, db.proposals)
    requires pid in db.proposals && db.proposals[pid].status == Pending
    requires db.proposals[pid].expected == MemoryOps.CurrentVersion(db, db.proposals[pid].scope, db.proposals[pid].key)
    ensures var d := Accept(db, pid, reviewer); Sourced(d.versions, d.proposals) && Applied(d.versions, d.proposals)
  {
    hide Exact, Sourced, Applied;
    var p := db.proposals[pid];
    var d := Accept(db, pid, reviewer);
    var k := (p.scope, p.key, p.expected + 1);
    NextVersionIsFree(db, p.scope, p.key);
    OneMoreSource(db.versions, db.proposals, pid, d.proposals[pid], k, d.versions[k]);
  }

  /** A proposal is accepted, and the version it becomes is new. */
  lemma OneMoreSource(versions: Versions, proposals: Proposals, pid: Id, p: Proposal, k: (Id, string, nat), v: Version)
    requires Sourced(versions, proposals) && Applied(versions, proposals)
    requires pid in proposals && proposals[pid].status != Accepted && k !in versions && v.proposal == pid && Becomes(p, k, v)
    ensures Sourced(versions[k := v], proposals[pid := p]) && Applied(versions[k := v], proposals[pid := p])
  {
    var more, after := versions[k := v], proposals[pid := p];
    forall j | j in more ensures FromProposal(j, more[j], after) {
      if j != k { assert FromProposal(j, versions[j], proposals); }
    }
    forall i | i in after && after[i].status == Accepted ensures AppliedAt(i, after[i], more) {
      if i != pid { assert AppliedAt(i, proposals[i], versions); }
    }
  }

  lemma AcceptedLedger(db: Database, pid: Id, reviewer: Id)
    requires Ledger(db.records, db.versions, db.proposals)
    requires pid in db.proposals && db.proposals[pid].status == Pending
    requires db.proposals[pid].expected == MemoryOps.CurrentVersion(db, db.proposals[pid].scope, db.proposals[pid].key)
    ensures var d := Accept(db, pid, reviewer); Ledger(d.records, d.versions, d.proposals)
  {
    hide Complete, Exact, Sourced, Applied, Accept;
    AcceptedComplete(db, pid, reviewer);
    AcceptedSourced(db, pid, reviewer);
  }

  lemma AcceptedVetted(cfg: Config, db: Database, pid: Id, reviewer: Id)
    requires Vetted(db.scopes, db.proposals) && Scanned(cfg, db.proposals)
    requires pid in db.proposals && !db.proposals[pid].quarantined && db.proposals[pid].scope in db.scopes
    requires reviewer != db.proposals[pid].proposer || db.scopes[db.proposals[pid].scope].kind == Personal
    ensures var d := Accept(db, pid, reviewer); Vetted(d.scopes, d.proposals) && Scanned(cfg, d.proposals)
  {
    hide MemoryOps.MemoryFindings;
  }

  lemma ReviewedAudited(cfg: Config, db: Database, a: Id, op: MemoryOps.MemoryOp)
    requires Audited(cfg, db) && a in db.principals && op.Review? && MemoryOps.Reviewed(cfg, db, a, op).Ok?
    ensures Audited(cfg, MemoryOps.Reviewed(cfg, db, a, op).value)
  {
    hide RequireRole, Meter.Charged, MemoryOps.Settled, MemoryOps.Promoted, Ledger, Vetted, Scanned;
    var pid := op.proposal;
    var p := db.proposals[pid];
    var held := db.(locks := db.locks + {(p.scope, p.key)});
    if !op.accept { Refused(cfg, db, pid, Rejected, a); }
    else if p.expected != MemoryOps.CurrentVersion(db, p.scope, p.key) { Refused(cfg, held, pid, Conflicted, a); }
    else {
      var charged := Meter.Charged(cfg, held, p.org, Bytes(p.content) + Bytes(p.source)).value;
      AcceptedLedger(charged, pid, a);
      AcceptedVetted(cfg, charged, pid, a);
    }
  }

  // ---------------------------------------------------------------- deletions

  /** What a deletion takes away. */
  datatype Region = Nothing | OneKey(scope: Id, key: string) | WholeScope(scope: Id) {
    predicate Has(sid: Id, k: string) {
      !Nothing? && sid == scope && (OneKey? ==> k == key)
    }
  }

  /** Every row of a region is removed from all three tables, and no other row. */
  ghost predicate Cut(before: Database, after: Database, gone: Region) {
    && (forall k :: k in after.records <==> k in before.records && !gone.Has(k.0, k.1))
    && (forall k :: k in after.versions <==> k in before.versions && !gone.Has(k.0, k.1))
    && (forall i :: i in after.proposals <==> i in before.proposals && !gone.Has(before.proposals[i].scope, before.proposals[i].key))
    && (forall k :: k in after.records ==> after.records[k] == before.records[k])
    && (forall k :: k in after.versions ==> after.versions[k] == before.versions[k])
    && (forall i :: i in after.proposals ==> after.proposals[i] == before.proposals[i])
  }

  lemma CutComplete(before: Database, after: Database, gone: Region)
    requires Complete(before.records, before.versions) && Exact(before.records, before.versions) && Cut(before, after, gone)
    ensures Complete(after.records, after.versions) && Exact(after.records, after.versions)
  {
    forall k | k in after.records ensures CompleteAt(k, after.records[k], after.versions) {
      assert CompleteAt(k, before.records[k], before.versions);
    }
    forall k | k in after.versions ensures ExactAt(k, after.records) {
      assert ExactAt(k, before.records);
    }
  }

  lemma CutSourced(before: Database, after: Database, gone: Region)
    requires Sourced(before.versions, before.proposals) && Applied(before.versions, before.proposals) && Cut(before, after, gone)
    ensures Sourced(after.versions, after.proposals) && Applied(after.versions, after.proposals)
  {
    forall k | k in after.versions ensures FromProposal(k, after.versions[k], after.proposals) {
      assert FromProposal(k, before.versions[k], before.proposals);
    }
    forall i | i in after.proposals && after.proposals[i].status == Accepted ensures AppliedAt(i, after.proposals[i], after.versions) {
      assert AppliedAt(i, before.proposals[i], before.versions);
    }
  }

  lemma CutLedger(before: Database, after: Database, gone: Region)
    requires Ledger(before.records, before.versions, before.proposals) && Cut(before, after, gone)
    ensures Ledger(after.records, after.versions, after.proposals)
  {
    hide Complete, Exact, Sourced, Applied, Cut;
    CutComplete(before, after, gone);
    CutSourced(before, after, gone);
  }

  lemma CutVetted(cfg: Config, before: Database, after: Database, gone: Region)
    requires Vetted(before.scopes, before.proposals) && Scanned(cfg, before.proposals) && Cut(before, after, gone)
    requires forall s :: s in after.scopes && s in before.scopes ==> after.scopes[s].kind == before.scopes[s].kind
    requires ProposalsPlaced(before.scopes, before.proposals)
    ensures Vetted(after.scopes, after.proposals) && Scanned(cfg, after.proposals)
  {
    hide MemoryOps.MemoryFindings;
  }

  /** A deletion that cuts a region, and changes no scope's kind, keeps everything the audit asks. */
  lemma CutAudited(cfg: Config, before: Database, after: Database, gone: Region)
    requires Audited(cfg, before) && Placed(before) && Cut(before, after, gone)
    requires forall s :: s in after.scopes && s in before.scopes ==> after.scopes[s].kind == before.scopes[s].kind
    ensures Audited(cfg, after)
  {
    hide Ledger, Vetted, Scanned, Cut, ProposalsPlaced;
    CutLedger(before, after, gone);
    CutVetted(cfg, before, after, gone);
  }

  lemma KeyDeletedAudited(cfg: Config, db: Database, a: Id, op: MemoryOps.MemoryOp)
    requires Audited(cfg, db) && Placed(db) && a in db.principals && op.DeleteKey? && MemoryOps.KeyDeleted(cfg, db, a, op).Ok?
    ensures Audited(cfg, MemoryOps.KeyDeleted(cfg, db, a, op).value)
  {
    hide Audited, Placed, Cut, RequireRole, Permitted, MemoryOps.KeyExists, MemoryOps.KeyPurged, Meter.Recounted;
    var purged := MemoryOps.KeyPurged(db, db.principals[a].org, op.scope, op.key);
    KeyPurgedCuts(db, db.principals[a].org, op.scope, op.key);
    CutAs(db, purged, MemoryOps.KeyDeleted(cfg, db, a, op).value, OneKey(op.scope, op.key));
    KeyPurgedScopes(db, db.principals[a].org, op.scope, op.key);
    CutAudited(cfg, db, MemoryOps.KeyDeleted(cfg, db, a, op).value, OneKey(op.scope, op.key));
  }

  lemma KeyPurgedScopes(db: Database, org: Id, sid: Id, key: string)
    ensures MemoryOps.KeyPurged(db, org, sid, key).scopes == db.scopes
  {
  }

  lemma CutAs(before: Database, middle: Database, after: Database, gone: Region)
    requires Cut(before, middle, gone)
    requires after.records == middle.records && after.versions == middle.versions && after.proposals == middle.proposals
    ensures Cut(before, after, gone)
  {
  }

  /** Rows of a scope belong to its organisation, so filtering by both is filtering by scope. */
  lemma ScopeRows(db: Database, org: Id, sid: Id)
    requires PayloadPlaced(db, db.scopes) && Lives(db.scopes, sid, org)
    ensures forall k :: k in db.records && k.0 == sid ==> db.records[k].org == org
    ensures forall k :: k in db.versions && k.0 == sid ==> db.versions[k].org == org
    ensures forall i :: i in db.proposals && db.proposals[i].scope == sid ==> db.proposals[i].org == org
  {
    forall k | k in db.records && k.0 == sid ensures db.records[k].org == org { assert Lives(db.scopes, k.0, db.records[k].org); }
    forall k | k in db.versions && k.0 == sid ensures db.versions[k].org == org { assert Lives(db.scopes, k.0, db.versions[k].org); }
    forall i | i in db.proposals && db.proposals[i].scope == sid ensures db.proposals[i].org == org {
      assert Lives(db.scopes, db.proposals[i].scope, db.proposals[i].org);
    }
  }

  lemma KeyPurgedCuts(db: Database, org: Id, sid: Id, key: string)
    requires Placed(db) && Lives(db.scopes, sid, org)
    ensures Cut(db, MemoryOps.KeyPurged(db, org, sid, key), OneKey(sid, key))
  {
    hide PayloadPlaced, HasAccessPlaced, Known, Lives;
    ScopeRows(db, org, sid);
  }

  lemma PurgedCuts(db: Database, org: Id, sid: Id)
    requires Placed(db) && Lives(db.scopes, sid, org)
    ensures Cut(db, ScopeOps.Purged(db, org, sid), WholeScope(sid))
  {
    hide PayloadPlaced, HasAccessPlaced, Known, Lives;
    ScopeRows(db, org, sid);
  }

  lemma DeletedAudited(cfg: Config, db: Database, a: Id, op: ScopeOps.ScopeOp)
    requires Audited(cfg, db) && Placed(db) && a in db.principals && op.DeleteScope? && ScopeOps.Deleted(cfg, db, a, op).Ok?
    ensures Audited(cfg, ScopeOps.Deleted(cfg, db, a, op).value)
  {
    hide Audited, Placed, Cut, RequireRole, Permitted, ScopeOps.HasChild, ScopeOps.HasData, ScopeOps.Purged, Meter.Recounted;
    var org := db.principals[a].org;
    var d := ScopeOps.Deleted(cfg, db, a, op).value;
    var gone := if op.contents then WholeScope(op.scope) else Nothing;
    var middle := if op.contents then ScopeOps.Purged(db, org, op.scope) else db;
    if op.contents { PurgedCuts(db, org, op.scope); PurgedScopes(db, org, op.scope); } else { CutNothing(db); }
    CutAs(db, middle, d, gone);
    CutAudited(cfg, db, d, gone);
  }

  lemma CutNothing(db: Database)
    ensures Cut(db, db, Nothing)
  {
  }

  lemma PurgedScopes(db: Database, org: Id, sid: Id)
    ensures ScopeOps.Purged(db, org, sid).scopes == db.scopes
  {
  }
}
