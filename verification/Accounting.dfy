/** With billing enabled throughout, every usage row equals the byte recount of its organisation. */
module AccountingProofs {
  import opened Base
  import opened Tables
  import opened ScopeTree
  import opened PlacementProofs
  import opened JobLifeProofs
  import opened LedgerProofs
  import opened LedgerMergeProofs
  import opened Meter
  import PayloadScan
  import ScopeOps
  import PeopleOps
  import MemoryOps
  import JobOps
  import SlotOps
  import opened Workspace

  ghost predicate Balanced(db: Database) {
    forall o :: o in db.usage ==> db.usage[o] == Recount(db, o)
  }

  /** Payload bytes grew by `n` for one organisation and by nothing for the others. */
  ghost predicate Added(before: Database, after: Database, org: Id, n: nat) {
    forall o :: Recount(after, o) == Recount(before, o) + (if o == org then n else 0)
  }

  // ---------------------------------------------------------------- charging

  lemma LockedBalanced(db: Database, org: Id)
    requires Balanced(db)
    ensures Balanced(UsageLocked(db, org)) && org in UsageLocked(db, org).usage
  {
    hide Recount;
    if org !in db.usage {
      var locked := db.(usage := db.usage[org := Recount(db, org)]);
      forall o | o in locked.usage ensures locked.usage[o] == Recount(locked, o) {
        SameRecount(db, locked, o);
      }
    }
  }

  lemma SameRecount(before: Database, after: Database, o: Id)
    requires after.proposals == before.proposals && after.versions == before.versions
    requires after.messages == before.messages && after.jobs == before.jobs
    ensures Recount(after, o) == Recount(before, o)
  {
  }

  lemma SamePayload(before: Database, after: Database)
    requires after.proposals == before.proposals && after.versions == before.versions
    requires after.messages == before.messages && after.jobs == before.jobs
    ensures forall o :: Recount(after, o) == Recount(before, o)
  {
  }

  /** A charge of exactly the bytes that are then written keeps the balance, and fits the cap. */
  lemma ChargeThenWrite(cfg: Config, db: Database, org: Id, n: nat, after: Database)
    requires cfg.metered && Balanced(db) && Charged(cfg, db, org, n).Ok?
    requires Added(db, after, org, n) && after.usage == Charged(cfg, db, org, n).value.usage
    ensures Balanced(after)
    ensures GrowthFits(cfg, db, after)
  {
    hide Recount;
    if n > 0 {
      LockedBalanced(db, org);
      SamePayload(db, UsageLocked(db, org));
    }
  }

  /** An organisation whose payload bytes grew has a counter, and it is within the cap of the plan in force;
      its first charge is no exception. */
  ghost predicate GrowthFits(cfg: Config, before: Database, after: Database) {
    forall o :: Recount(after, o) > Recount(before, o) ==>
      && o in after.usage
      && var cap := LimitsFor(cfg, before.accounts, o).maxBytes;
         cap.Some? ==> after.usage[o] <= cap.value
  }

  // ---------------------------------------------------------------- what one written row adds

  lemma ProposalWritten(db: Database, id: Id, row: Proposal)
    requires id in db.proposals ==> row.org == db.proposals[id].org && ProposalBytes(row) == ProposalBytes(db.proposals[id])
    ensures Added(db, db.(proposals := db.proposals[id := row]), row.org, if id in db.proposals then 0 else ProposalBytes(row))
  {
    hide ProposalBytes, Total;
    forall o { TotalWrite(db.proposals, ProposalWeight(o), id, row); }
  }

  lemma VersionWritten(db: Database, k: (Id, string, nat), row: Version)
    requires k !in db.versions
    ensures Added(db, db.(versions := db.versions[k := row]), row.org, VersionBytes(row))
  {
    hide VersionBytes, Total;
    forall o { TotalWrite(db.versions, VersionWeight(o), k, row); }
  }

  lemma MessageWritten(db: Database, id: Id, row: Message)
    requires id !in db.messages
    ensures Added(db, db.(messages := db.messages[id := row]), row.org, MessageBytes(row))
  {
    hide MessageBytes, Total;
    forall o { TotalWrite(db.messages, MessageWeight(o), id, row); }
  }

  lemma JobWritten(db: Database, id: Id, row: Job, n: nat)
    requires if id in db.jobs then row.org == db.jobs[id].org && JobBytes(row) == JobBytes(db.jobs[id]) + n else JobBytes(row) == n
    ensures Added(db, db.(jobs := db.jobs[id := row]), row.org, n)
  {
    hide JobBytes, Total;
    forall o { TotalWrite(db.jobs, JobWeight(o), id, row); }
  }

  lemma AddedWith(before: Database, middle: Database, after: Database, org: Id, n: nat)
    requires Added(before, middle, org, n)
    requires after.proposals == middle.proposals && after.versions == middle.versions
    requires after.messages == middle.messages && after.jobs == middle.jobs
    ensures Added(before, after, org, n)
  {
    hide Recount;
    SamePayload(middle, after);
  }

  // ---------------------------------------------------------------- memory

  lemma ProposedBalanced(cfg: Config, db: Database, a: Id, op: MemoryOps.MemoryOp)
    requires cfg.metered && Balanced(db) && Known(db)
    requires a in db.principals && op.Propose? && MemoryOps.Proposed(cfg, db, a, op).Ok?
    ensures var d := MemoryOps.Proposed(cfg, db, a, op).value; Balanced(d) && GrowthFits(cfg, db, d)
  {
    hide Recount, RequireRole, Charged, MemoryOps.MemoryFindings, ProposalBytes, Balanced, Added, GrowthFits;
    var org := db.principals[a].org;
    var findings := MemoryOps.MemoryFindings(cfg, op.key, op.content, op.source);
    var row := Proposal(org, op.scope, op.key, op.content, op.expected, op.epistemic, op.source, a, Pending, findings, findings != {}, None);
    var d := MemoryOps.Proposed(cfg, db, a, op).value;
    ProposalWritten(db, op.id, row);
    AddedWith(db, db.(proposals := db.proposals[op.id := row]), d, org, ProposalBytes(row));
    ChargeThenWrite(cfg, db, org, ProposalBytes(row), d);
  }

  lemma SettledAdds(db: Database, pid: Id, status: ProposalStatus, reviewer: Id)
    requires pid in db.proposals
    ensures Added(db, MemoryOps.Settled(db, pid, status, reviewer), db.proposals[pid].org, 0)
  {
    hide Recount, Added;
    ProposalWritten(db, pid, db.proposals[pid].(status := status, reviewer := Some(reviewer)));
  }

  lemma SumAdded(before: Database, middle: Database, after: Database, org: Id, m: nat, n: nat)
    requires Added(before, middle, org, m) && Added(middle, after, org, n)
    ensures Added(before, after, org, m + n)
  {
    hide Recount;
  }

  lemma PromotedAdds(db: Database, pid: Id)
    requires pid in db.proposals && Exact(db.records, db.versions)
    ensures var p := db.proposals[pid]; Added(db, MemoryOps.Promoted(db, pid), p.org, Bytes(p.content) + Bytes(p.source))
  {
    var p := db.proposals[pid];
    var next := MemoryOps.CurrentVersion(db, p.scope, p.key) + 1;
    var row := Version(p.org, p.content, p.epistemic, p.source, pid, p.proposer);
    NextVersionIsFree(db, p.scope, p.key);
    VersionWritten(db, (p.scope, p.key, next), row);
    hide Recount, Bytes, Added, Exact;
    AddedWith(db, db.(versions := db.versions[(p.scope, p.key, next) := row]), MemoryOps.Promoted(db, pid), p.org, VersionBytes(row));
  }

  lemma AcceptedBalanced(cfg: Config, db: Database, a: Id, pid: Id)
    requires cfg.metered && Balanced(db) && Exact(db.records, db.versions) && pid in db.proposals
    requires MemoryOps.AcceptedInto(cfg, db, a, pid).Ok?
    ensures var d := MemoryOps.AcceptedInto(cfg, db, a, pid).value; Balanced(d) && GrowthFits(cfg, db, d)
  {
    hide Recount, Charged, Bytes, Balanced, Added, GrowthFits, Exact;
    var p := db.proposals[pid];
    var n := Bytes(p.content) + Bytes(p.source);
    var charged := Charged(cfg, db, p.org, n).value;
    var settled := MemoryOps.Settled(db, pid, Accepted, a);
    var d := MemoryOps.AcceptedInto(cfg, db, a, pid).value;
    SettledAdds(db, pid, Accepted, a);
    PromotedAdds(settled, pid);
    SumAdded(db, settled, MemoryOps.Promoted(settled, pid), p.org, 0, n);
    AddedWith(db, MemoryOps.Promoted(settled, pid), d, p.org, n);
    ChargeThenWrite(cfg, db, p.org, n, d);
  }

  /** A change that adds no bytes and leaves the counters alone. */
  lemma StillBalanced(cfg: Config, before: Database, after: Database, org: Id)
    requires Balanced(before) && Added(before, after, org, 0) && after.usage == before.usage
    ensures Balanced(after) && GrowthFits(cfg, before, after)
  {
    hide Recount;
  }

  lemma ReviewedBalanced(cfg: Config, db: Database, a: Id, op: MemoryOps.MemoryOp)
    requires cfg.metered && Balanced(db) && Exact(db.records, db.versions)
    requires a in db.principals && op.Review? && MemoryOps.Reviewed(cfg, db, a, op).Ok?
    ensures var d := MemoryOps.Reviewed(cfg, db, a, op).value; Balanced(d) && GrowthFits(cfg, db, d)
  {
    hide Recount, Balanced, Added, GrowthFits, Exact, RequireRole, MemoryOps.Settled, MemoryOps.AcceptedInto;
    var pid := op.proposal;
    var p := db.proposals[pid];
    var held := db.(locks := db.locks + {(p.scope, p.key)});
    SamePayload(db, held);
    HeldBalanced(cfg, db, held);
    if !op.accept {
      SettledAdds(db, pid, Rejected, a);
      SettledUsage(db, pid, Rejected, a);
      StillBalanced(cfg, db, MemoryOps.Settled(db, pid, Rejected, a), p.org);
    } else if p.expected != MemoryOps.CurrentVersion(db, p.scope, p.key) {
      SettledAdds(held, pid, Conflicted, a);
      SettledUsage(held, pid, Conflicted, a);
      StillBalanced(cfg, held, MemoryOps.Settled(held, pid, Conflicted, a), p.org);
      SameGrowth(cfg, db, held, MemoryOps.Settled(held, pid, Conflicted, a));
    } else {
      AcceptedBalanced(cfg, held, a, pid);
      SameGrowth(cfg, db, held, MemoryOps.AcceptedInto(cfg, held, a, pid).value);
    }
  }

  lemma SettledUsage(db: Database, pid: Id, status: ProposalStatus, reviewer: Id)
    requires pid in db.proposals
    ensures MemoryOps.Settled(db, pid, status, reviewer).usage == db.usage
  {
  }

  lemma HeldBalanced(cfg: Config, db: Database, held: Database)
    requires Balanced(db) && held == db.(locks := held.locks)
    ensures Balanced(held)
  {
    hide Recount;
    SamePayload(db, held);
  }

  lemma SameGrowth(cfg: Config, before: Database, held: Database, after: Database)
    requires held == before.(locks := held.locks) && GrowthFits(cfg, held, after)
    ensures GrowthFits(cfg, before, after)
  {
    hide Recount;
    SamePayload(before, held);
  }

  // ---------------------------------------------------------------- deletions

  /** Payload rows of one organisation were removed, and none of another. */
  ghost predicate OnlyCut<K, T>(before: map<K, T>, after: map<K, T>, gone: T -> bool) {
    && (forall k :: k in after ==> k in before && after[k] == before[k])
    && (forall k :: k in before && k !in after ==> gone(before[k]))
  }

  ghost predicate CutOf(before: Database, after: Database, org: Id) {
    && OnlyCut(before.proposals, after.proposals, (p: Proposal) => p.org == org)
    && OnlyCut(before.versions, after.versions, (v: Version) => v.org == org)
    && OnlyCut(before.messages, after.messages, (m: Message) => m.org == org)
    && OnlyCut(before.jobs, after.jobs, (j: Job) => j.org == org)
  }

  lemma CutRecount(before: Database, after: Database, org: Id, o: Id)
    requires CutOf(before, after, org)
    ensures Recount(after, o) <= Recount(before, o)
    ensures o != org ==> Recount(after, o) == Recount(before, o)
  {
    hide ProposalBytes, VersionBytes, MessageBytes, JobBytes, Total;
    TotalCut(before.proposals, after.proposals, ProposalWeight(o));
    TotalCut(before.versions, after.versions, VersionWeight(o));
    TotalCut(before.messages, after.messages, MessageWeight(o));
    TotalCut(before.jobs, after.jobs, JobWeight(o));
  }

  lemma RecountedBalanced(cfg: Config, db: Database, purged: Database, org: Id)
    requires cfg.metered && Balanced(db) && purged.usage == db.usage && CutOf(db, purged, org)
    ensures Balanced(Recounted(cfg, purged, org)) && GrowthFits(cfg, db, Recounted(cfg, purged, org))
  {
    hide Recount, CutOf;
    var d := Recounted(cfg, purged, org);
    SamePayload(purged, d);
    forall o { CutRecount(db, purged, org, o); }
  }

  lemma KeyPurgedCut(db: Database, org: Id, sid: Id, key: string)
    ensures CutOf(db, MemoryOps.KeyPurged(db, org, sid, key), org) && MemoryOps.KeyPurged(db, org, sid, key).usage == db.usage
  {
  }

  lemma PurgedCut(db: Database, org: Id, sid: Id)
    ensures CutOf(db, ScopeOps.Purged(db, org, sid), org) && ScopeOps.Purged(db, org, sid).usage == db.usage
  {
  }

  lemma KeyDeletedBalanced(cfg: Config, db: Database, a: Id, op: MemoryOps.MemoryOp)
    requires cfg.metered && Balanced(db) && a in db.principals && op.DeleteKey? && MemoryOps.KeyDeleted(cfg, db, a, op).Ok?
    ensures var d := MemoryOps.KeyDeleted(cfg, db, a, op).value; Balanced(d) && GrowthFits(cfg, db, d)
  {
    hide RequireRole, Permitted, MemoryOps.KeyExists, MemoryOps.KeyPurged, Recounted, Balanced, GrowthFits, CutOf;
    var org := db.principals[a].org;
    KeyPurgedCut(db, org, op.scope, op.key);
    RecountedBalanced(cfg, db, MemoryOps.KeyPurged(db, org, op.scope, op.key), org);
  }

  lemma DeletedBalanced(cfg: Config, db: Database, a: Id, op: ScopeOps.ScopeOp)
    requires cfg.metered && Balanced(db) && a in db.principals && op.DeleteScope? && ScopeOps.Deleted(cfg, db, a, op).Ok?
    ensures var d := ScopeOps.Deleted(cfg, db, a, op).value; Balanced(d) && GrowthFits(cfg, db, d)
  {
    hide RequireRole, Permitted, ScopeOps.HasChild, ScopeOps.HasData, ScopeOps.Purged, Recounted, Balanced, GrowthFits, CutOf;
    var org := db.principals[a].org;
    var before := if op.contents then Recounted(cfg, ScopeOps.Purged(db, org, op.scope), org) else db;
    if op.contents {
      PurgedCut(db, org, op.scope);
      RecountedBalanced(cfg, db, ScopeOps.Purged(db, org, op.scope), org);
    } else {
      NoGrowth(cfg, db);
    }
    DroppedBalanced(cfg, db, before, op.scope);
  }

  lemma DroppedBalanced(cfg: Config, db: Database, before: Database, sid: Id)
    requires Balanced(before) && GrowthFits(cfg, db, before)
    ensures Balanced(ScopeOps.Dropped(before, sid)) && GrowthFits(cfg, db, ScopeOps.Dropped(before, sid))
  {
    hide Recount;
    SamePayload(before, ScopeOps.Dropped(before, sid));
  }

  lemma NoGrowth(cfg: Config, db: Database)
    ensures GrowthFits(cfg, db, db)
  {
  }

  // ---------------------------------------------------------------- merge

  lemma RehomedMessageTotal(db: Database, source: Id, target: Id, o: Id)
    ensures Total(ScopeOps.Rehomed(db, source, target).messages, MessageWeight(o)) == Total(db.messages, MessageWeight(o))
  {
    hide ScopeOps.RehomedRecordKeys, ScopeOps.RehomedVersionKeys, Bytes, FindingsBytes, Total;
    TotalRewritten(db.messages, ScopeOps.Rehomed(db, source, target).messages, MessageWeight(o));
  }

  lemma RehomedJobTotal(db: Database, source: Id, target: Id, o: Id)
    ensures Total(ScopeOps.Rehomed(db, source, target).jobs, JobWeight(o)) == Total(db.jobs, JobWeight(o))
  {
    hide ScopeOps.RehomedRecordKeys, ScopeOps.RehomedVersionKeys, Bytes, FindingsBytes, Total;
    TotalRewritten(db.jobs, ScopeOps.Rehomed(db, source, target).jobs, JobWeight(o));
  }

  lemma RehomedProposalTotal(db: Database, source: Id, target: Id, o: Id)
    ensures Total(ScopeOps.Rehomed(db, source, target).proposals, ProposalWeight(o)) == Total(db.proposals, ProposalWeight(o))
  {
    hide ScopeOps.RehomedRecordKeys, ScopeOps.RehomedVersionKeys, Bytes, FindingsBytes, Total;
    TotalRewritten(db.proposals, ScopeOps.Rehomed(db, source, target).proposals, ProposalWeight(o));
  }

  lemma RehomedUsage(db: Database, source: Id, target: Id)
    ensures ScopeOps.Rehomed(db, source, target).usage == db.usage
  {
  }

  lemma RehomedVersionTotal(db: Database, source: Id, target: Id, weight: Version -> nat)
    requires KeysApart(db, source, target)
    ensures Total(ScopeOps.Rehomed(db, source, target).versions, weight) == Total(db.versions, weight)
  {
    var d := ScopeOps.Rehomed(db, source, target);
    var rename := map k | k in db.versions :: (ScopeOps.Home(source, target, k.0), k.1, k.2);
    hide ScopeOps.Rehomed, KeysApart;
    forall k | k in db.versions
      ensures rename[k] in d.versions && d.versions[rename[k]] == db.versions[k]
    {
      VersionForward(db, source, target, k);
    }
    forall k ensures k in rename.Values <==> k in d.versions.Keys {
      if k in d.versions { var q := VersionBack(db, source, target, k); assert rename[q] == k; }
    }
    forall j, k | j in rename && k in rename && rename[j] == rename[k] ensures j == k {
      VersionsApart(db, source, target, j, k);
    }
    TotalRenamed(db.versions, d.versions, rename, weight);
  }

  lemma VersionsApart(db: Database, source: Id, target: Id, j: (Id, string, nat), k: (Id, string, nat))
    requires KeysApart(db, source, target) && j in db.versions && k in db.versions
    requires (ScopeOps.Home(source, target, j.0), j.1, j.2) == (ScopeOps.Home(source, target, k.0), k.1, k.2)
    ensures j == k
  {
    hide KeysApart;
    assert j == (j.0, j.1, j.2) && k == (k.0, k.1, k.2);
    if j.0 == source { VersionApart(db, source, target, j.1, j.2); }
    if k.0 == source { VersionApart(db, source, target, k.1, k.2); }
  }

  lemma RehomedAdds(db: Database, source: Id, target: Id, o: Id)
    requires KeysApart(db, source, target)
    ensures Recount(ScopeOps.Rehomed(db, source, target), o) == Recount(db, o)
  {
    hide ScopeOps.Rehomed, KeysApart, Total, ProposalWeight, VersionWeight, MessageWeight, JobWeight;
    RehomedProposalTotal(db, source, target, o);
    RehomedVersionTotal(db, source, target, VersionWeight(o));
    RehomedMessageTotal(db, source, target, o);
    RehomedJobTotal(db, source, target, o);
  }

  lemma MergedBalanced(cfg: Config, db: Database, a: Id, op: ScopeOps.ScopeOp)
    requires Balanced(db) && a in db.principals && op.Merge? && ScopeOps.Merged(db, a, op).Ok?
    ensures var d := ScopeOps.Merged(db, a, op).value; Balanced(d) && GrowthFits(cfg, db, d)
  {
    hide Permitted, Chain, ScopeOps.Retained, ScopeOps.Rehomed, Balanced, Recount, ScopeOps.ChildNamesCollide, ScopeOps.JobsCollide,
         ScopeOps.MemoryKeys;
    var adopted := db.(policies := ScopeOps.Retained(db.policies, db.principals[a].org, Chain(db.scopes, op.source).value, op.target),
                       scopes := ScopeOps.Adopted(db.scopes, op.source, op.target));
    SamePayload(db, adopted);
    SameKeys(db, adopted, op.source);
    SameKeys(db, adopted, op.target);
    RehomedUsage(adopted, op.source, op.target);
    var d := ScopeOps.Rehomed(adopted, op.source, op.target);
    MovedBalanced(cfg, db, adopted, d, op.source, op.target);
    DroppedBalanced(cfg, db, d, op.source);
  }

  lemma MovedBalanced(cfg: Config, db: Database, adopted: Database, d: Database, source: Id, target: Id)
    requires Balanced(db) && KeysApart(adopted, source, target) && d == ScopeOps.Rehomed(adopted, source, target)
    requires adopted == db.(policies := adopted.policies, scopes := adopted.scopes) && d.usage == db.usage
    ensures Balanced(d) && GrowthFits(cfg, db, d)
  {
    hide Recount, KeysApart, ScopeOps.Rehomed;
    SamePayload(db, adopted);
    forall o { RehomedAdds(adopted, source, target, o); }
  }

  // ---------------------------------------------------------------- messages and jobs

  lemma SentBalanced(cfg: Config, db: Database, a: Id, op: MemoryOps.MemoryOp)
    requires cfg.metered && Balanced(db) && Known(db) && a in db.principals && op.Send? && MemoryOps.Sent(cfg, db, a, op).Ok?
    ensures var d := MemoryOps.Sent(cfg, db, a, op).value; Balanced(d) && GrowthFits(cfg, db, d)
  {
    hide Recount, RequireRole, RoleFor, Charged, MessageBytes, Balanced, Added, GrowthFits;
    var org := db.principals[a].org;
    var findings := cfg.scan(op.body);
    var row := Message(org, op.scope, a, op.recipient, op.body, findings, findings != {});
    var d := MemoryOps.Sent(cfg, db, a, op).value;
    MessageWritten(db, op.id, row);
    AddedWith(db, db.(messages := db.messages[op.id := row]), d, org, MessageBytes(row));
    ChargeThenWrite(cfg, db, org, MessageBytes(row), d);
  }

  lemma JobCreatedBalanced(cfg: Config, db: Database, a: Id, op: JobOps.JobOp)
    requires cfg.metered && Balanced(db) && Known(db) && a in db.principals && op.CreateJob? && JobOps.JobCreated(cfg, db, a, op).Ok?
    ensures var d := JobOps.JobCreated(cfg, db, a, op).value; Balanced(d) && GrowthFits(cfg, db, d)
  {
    hide Recount, RequireRole, RoleFor, Charged, JobBytes, Balanced, Added, JobOps.JobFindings, GrowthFits, JobOps.Replayed,
         JobOps.SamePayload;
    var org := db.principals[a].org;
    var row := JobOps.QueuedRow(cfg, org, a, op);
    var d := JobOps.JobCreated(cfg, db, a, op).value;
    if JobOps.Replayed(db, a, op) {
      NoGrowth(cfg, db);
    } else {
      JobWritten(db, op.id, row, JobBytes(row));
      AddedWith(db, db.(jobs := db.jobs[op.id := row]), d, org, JobBytes(row));
      ChargeThenWrite(cfg, db, org, JobBytes(row), d);
    }
  }

  /** `max(0, ...)` in the charge is exact because a claimed job has no result and empty findings. */
  lemma SubmittedBytes(job: Job, json: string, findings: Findings)
    requires Shaped(job) && job.status == Claimed
    ensures JobBytes(JobOps.SubmittedRow(job, json, findings))
         == JobBytes(job) + Bytes(json) + JobOps.Max(0, FindingsBytes(findings) - FindingsBytes(job.findings))
  {
    hide Bytes;
    assert FindingsBytes({}) == 2;
  }

  lemma JobSubmittedBalanced(cfg: Config, db: Database, a: Id, op: JobOps.JobOp)
    requires cfg.metered && Balanced(db) && AllShaped(db.jobs) && a in db.principals && op.Submit? && JobOps.JobSubmitted(cfg, db, a, op).Ok?
    ensures var d := JobOps.JobSubmitted(cfg, db, a, op).value; Balanced(d) && GrowthFits(cfg, db, d)
  {
    hide Recount, RequireRole, Charged, FindingsBytes, Bytes, JobBytes, Balanced, Added, Shaped, GrowthFits, PayloadScan.Findings,
         JobOps.SubmittedRow;
    var d := JobOps.JobSubmitted(cfg, db, a, op).value;
    var job := db.jobs[op.job];
    var json := cfg.dumps(op.result).value;
    var findings := PayloadScan.Findings(cfg.scan, op.result);
    var n := Bytes(json) + JobOps.Max(0, FindingsBytes(findings) - FindingsBytes(job.findings));
    var row := JobOps.SubmittedRow(job, json, findings);
    SubmittedBytes(job, json, findings);
    SubmittedOrg(job, json, findings);
    JobWritten(db, op.job, row, n);
    AddedWith(db, db.(jobs := db.jobs[op.job := row]), d, job.org, n);
    ChargeThenWrite(cfg, db, job.org, n, d);
  }

  lemma SubmittedOrg(job: Job, json: string, findings: Findings)
    ensures JobOps.SubmittedRow(job, json, findings).org == job.org
  {
  }

  /** Claims, renewals, reviews and cancellations change no payload bytes. */
  lemma JobMarkedBalanced(cfg: Config, db: Database, a: Id, op: JobOps.JobOp)
    requires Balanced(db) && AllShaped(db.jobs) && a in db.principals && JobOps.Performed(cfg, db, a, op).Ok? && !op.CreateJob? && !op.Submit?
    ensures var d := JobOps.Performed(cfg, db, a, op).value; Balanced(d) && GrowthFits(cfg, db, d)
  {
    hide Recount, Balanced, Added, GrowthFits, AllShaped, JobOps.JobClaimed, JobOps.JobRenewed, JobOps.JobReviewed, JobOps.JobCancelled,
         Advances, Shaped;
    var d := JobOps.Performed(cfg, db, a, op).value;
    match op {
      case Claim(_, _, _, _) => JobClaimedRow(db, a, op);
      case Renew(_, _, _, _) => JobRenewedRow(db, a, op);
      case ReviewJob(_, _) => JobEndedRow(db, a, op);
      case Cancel(_) => JobEndedRow(db, a, op);
    }
    var row := d.jobs[op.job];
    JobWritten(db, op.job, row, 0);
    StillBalanced(cfg, db, d, row.org);
  }

  lemma JobOpBalanced(cfg: Config, db: Database, a: Id, op: JobOps.JobOp)
    requires cfg.metered && Balanced(db) && AllShaped(db.jobs) && Known(db) && a in db.principals && JobOps.Performed(cfg, db, a, op).Ok?
    ensures var d := JobOps.Performed(cfg, db, a, op).value; Balanced(d) && GrowthFits(cfg, db, d)
  {
    hide Balanced, GrowthFits, AllShaped, JobOps.JobCreated, JobOps.JobSubmitted, JobOps.JobClaimed, JobOps.JobRenewed,
         JobOps.JobReviewed, JobOps.JobCancelled;
    if op.CreateJob? { JobCreatedBalanced(cfg, db, a, op); }
    else if op.Submit? { JobSubmittedBalanced(cfg, db, a, op); }
    else { JobMarkedBalanced(cfg, db, a, op); }
  }

  // ---------------------------------------------------------------- every step

  lemma AdmittedBalanced(cfg: Config, db: Database, org: Id, count: nat, ceiling: Option<nat>, after: Database)
    requires Balanced(db) && Admitted(cfg, db, org, count, ceiling).Ok?
    requires after.usage == Admitted(cfg, db, org, count, ceiling).value.usage
    requires after.proposals == db.proposals && after.versions == db.versions && after.messages == db.messages && after.jobs == db.jobs
    ensures Balanced(after) && GrowthFits(cfg, db, after)
  {
    hide Recount;
    SamePayload(db, after);
  }

  lemma UnpaidBalanced(cfg: Config, before: Database, after: Database)
    requires Balanced(before) && after.usage == before.usage
    requires after.proposals == before.proposals && after.versions == before.versions
    requires after.messages == before.messages && after.jobs == before.jobs
    ensures Balanced(after) && GrowthFits(cfg, before, after)
  {
    hide Recount;
    SamePayload(before, after);
  }

  lemma PeopleOpBalanced(cfg: Config, db: Database, a: Id, op: PeopleOps.PeopleOp)
    requires Balanced(db) && a in db.principals && PeopleOps.Performed(cfg, db, a, op).Ok?
    ensures var d := PeopleOps.Performed(cfg, db, a, op).value; Balanced(d) && GrowthFits(cfg, db, d)
  {
    hide Balanced, GrowthFits, RequireRole, PeopleOps.ActiveAdmins, PeopleOps.NameOrTokenTaken, ScopeOps.PersonalEnsured, ActiveUsers,
         Admitted, LimitsFor;
    var d := PeopleOps.Performed(cfg, db, a, op).value;
    var org := db.principals[a].org;
    if op.CreatePrincipal? {
      AdmittedBalanced(cfg, db, org, |ActiveUsers(db, org)|, LimitsFor(cfg, db.accounts, org).maxUsers, d);
    } else {
      UnpaidBalanced(cfg, db, d);
    }
  }

  lemma SlotOpBalanced(cfg: Config, db: Database, a: Id, op: SlotOps.SlotOp)
    requires Balanced(db) && a in db.principals && SlotOps.Performed(cfg, db, a, op).Ok?
    ensures var d := SlotOps.Performed(cfg, db, a, op).value; Balanced(d) && GrowthFits(cfg, db, d)
  {
    hide Balanced, GrowthFits, ActiveInstances, ActiveConnections, Admitted, LimitsFor;
    var d := SlotOps.Performed(cfg, db, a, op).value;
    var org := db.principals[a].org;
    match op
    case CreateInstance(_, _, _) =>
      AdmittedBalanced(cfg, db, org, |ActiveInstances(db, org)|, LimitsFor(cfg, db.accounts, org).maxInstances, d);
    case Issue(_, _, _, _, _) =>
      AdmittedBalanced(cfg, db, org, |ActiveConnections(db, org)|, LimitsFor(cfg, db.accounts, org).maxConnections, d);
    case Revoke(_) => UnpaidBalanced(cfg, db, d);
  }

  lemma ScopeOpBalanced(cfg: Config, db: Database, a: Id, op: ScopeOps.ScopeOp)
    requires cfg.metered && Balanced(db) && a in db.principals && ScopeOps.Performed(cfg, db, a, op).Ok?
    ensures var d := ScopeOps.Performed(cfg, db, a, op).value; Balanced(d) && GrowthFits(cfg, db, d)
  {
    hide Balanced, GrowthFits, ScopeOps.Created, ScopeOps.PolicySet, ScopeOps.OwnerSet, ScopeOps.Moved, ScopeOps.Deleted,
         ScopeOps.Merged, ScopeOps.PersonalEnsured;
    if op.DeleteScope? { DeletedBalanced(cfg, db, a, op); }
    else if op.Merge? { MergedBalanced(cfg, db, a, op); }
    else { UnpaidBalanced(cfg, db, ScopeOps.Performed(cfg, db, a, op).value); }
  }

  lemma MemoryOpBalanced(cfg: Config, db: Database, a: Id, op: MemoryOps.MemoryOp)
    requires cfg.metered && Balanced(db) && Known(db) && Exact(db.records, db.versions)
    requires a in db.principals && MemoryOps.Performed(cfg, db, a, op).Ok?
    ensures var d := MemoryOps.Performed(cfg, db, a, op).value; Balanced(d) && GrowthFits(cfg, db, d)
  {
    hide Balanced, GrowthFits, Known, Exact, MemoryOps.Proposed, MemoryOps.Reviewed, MemoryOps.KeyDeleted, MemoryOps.Sent;
    match op
    case Propose(_, _, _, _, _, _, _) => ProposedBalanced(cfg, db, a, op);
    case Review(_, _) => ReviewedBalanced(cfg, db, a, op);
    case DeleteKey(_, _) => KeyDeletedBalanced(cfg, db, a, op);
    case Send(_, _, _, _) => SentBalanced(cfg, db, a, op);
  }

  /** Every committed operation keeps the balance, and no counter grows past the cap in force. */
  lemma DispatchBalanced(cfg: Config, db: Database, who: Identity, op: Op)
    requires cfg.metered && Balanced(db) && Known(db) && Exact(db.records, db.versions) && AllShaped(db.jobs)
    requires Dispatched(cfg, db, who, op).Ok?
    ensures var d := Dispatched(cfg, db, who, op).value; Balanced(d) && GrowthFits(cfg, db, d)
  {
    hide Balanced, GrowthFits, Known, Exact, AllShaped, ScopeOps.Performed, PeopleOps.Performed, MemoryOps.Performed,
         JobOps.Performed, SlotOps.Performed;
    match op
    case OnScopes(o) => ScopeOpBalanced(cfg, db, who.id, o);
    case OnPeople(o) => PeopleOpBalanced(cfg, db, who.id, o);
    case OnMemory(o) => MemoryOpBalanced(cfg, db, who.id, o);
    case OnJobs(o) => JobOpBalanced(cfg, db, who.id, o);
    case OnSlots(o) => SlotOpBalanced(cfg, db, who.id, o);
  }

  lemma StepBalanced(cfg: Config, db: Database, call: Call)
    requires cfg.metered && Balanced(db) && Known(db) && Exact(db.records, db.versions) && AllShaped(db.jobs)
    ensures Balanced(Step(cfg, db, call))
  {
    hide Known, Exact, AllShaped, Dispatched, PeopleOps.OrganisationCreated, Recount;
    var d := Step(cfg, db, call);
    match call
    case Dispatch(who, op) => if Dispatched(cfg, db, who, op).Ok? { DispatchBalanced(cfg, db, who, op); }
    case NewOrganisation(t) => if PeopleOps.OrganisationCreated(db, t).Ok? { TenantFrame(db, t); UnpaidBalanced(cfg, db, d); }
    case Recalculate(org) => SamePayload(db, d);
    case BillingAuthority(_) => UnpaidBalanced(cfg, db, d);
  }
}
