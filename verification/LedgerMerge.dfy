/** The version ledger survives a department merge, and so does every run. */
module LedgerMergeProofs {
  import opened Tables
  import opened ScopeTree
  import opened PlacementProofs
  import opened LedgerProofs
  import ScopeOps
  import PeopleOps
  import MemoryOps
  import JobOps
  import SlotOps
  import Meter
  import opened Workspace

  ghost predicate KeysApart(db: Database, source: Id, target: Id) {
    source != target && ScopeOps.MemoryKeys(db, source) !! ScopeOps.MemoryKeys(db, target)
  }

  // ---------------------------------------------------------------- rows keep their identity

  lemma RecordListed(db: Database, k: (Id, string))
    requires k in db.records
    ensures k.1 in ScopeOps.MemoryKeys(db, k.0)
  {
  }

  lemma VersionListed(db: Database, k: (Id, string, nat))
    requires k in db.versions
    ensures k.1 in ScopeOps.MemoryKeys(db, k.0)
  {
  }

  /** A record of the source has no namesake in the target. */
  lemma RecordApart(db: Database, source: Id, target: Id, key: string)
    requires KeysApart(db, source, target) && (source, key) in db.records
    ensures (target, key) !in db.records
  {
    hide ScopeOps.MemoryKeys;
    RecordListed(db, (source, key));
    if (target, key) in db.records { RecordListed(db, (target, key)); }
  }

  lemma VersionApart(db: Database, source: Id, target: Id, key: string, n: nat)
    requires KeysApart(db, source, target) && (source, key, n) in db.versions
    ensures (target, key, n) !in db.versions
  {
    hide ScopeOps.MemoryKeys;
    VersionListed(db, (source, key, n));
    if (target, key, n) in db.versions { VersionListed(db, (target, key, n)); }
  }

  lemma RecordForward(db: Database, source: Id, target: Id, q: (Id, string))
    requires KeysApart(db, source, target) && q in db.records
    ensures var k := (ScopeOps.Home(source, target, q.0), q.1);
      k in ScopeOps.Rehomed(db, source, target).records && ScopeOps.Rehomed(db, source, target).records[k] == db.records[q]
  {
    if q.0 == source { RecordApart(db, source, target, q.1); }
    hide KeysApart;
    var k := (ScopeOps.Home(source, target, q.0), q.1);
    assert k in ScopeOps.RehomedRecordKeys(db, source, target);
    assert q == (q.0, q.1);
  }

  lemma RecordBack(db: Database, source: Id, target: Id, k: (Id, string)) returns (q: (Id, string))
    requires KeysApart(db, source, target) && k in ScopeOps.Rehomed(db, source, target).records
    ensures q in db.records && k == (ScopeOps.Home(source, target, q.0), q.1)
    ensures ScopeOps.Rehomed(db, source, target).records[k] == db.records[q]
  {
    q :| q in db.records && k == (ScopeOps.Home(source, target, q.0), q.1);
    RecordForward(db, source, target, q);
  }

  lemma VersionForward(db: Database, source: Id, target: Id, q: (Id, string, nat))
    requires KeysApart(db, source, target) && q in db.versions
    ensures var k := (ScopeOps.Home(source, target, q.0), q.1, q.2);
      k in ScopeOps.Rehomed(db, source, target).versions && ScopeOps.Rehomed(db, source, target).versions[k] == db.versions[q]
  {
    if q.0 == source { VersionApart(db, source, target, q.1, q.2); }
    hide KeysApart;
    var k := (ScopeOps.Home(source, target, q.0), q.1, q.2);
    assert k in ScopeOps.RehomedVersionKeys(db, source, target);
    assert q == (q.0, q.1, q.2);
  }

  lemma VersionBack(db: Database, source: Id, target: Id, k: (Id, string, nat)) returns (q: (Id, string, nat))
    requires KeysApart(db, source, target) && k in ScopeOps.Rehomed(db, source, target).versions
    ensures q in db.versions && k == (ScopeOps.Home(source, target, q.0), q.1, q.2)
    ensures ScopeOps.Rehomed(db, source, target).versions[k] == db.versions[q]
  {
    q :| q in db.versions && k == (ScopeOps.Home(source, target, q.0), q.1, q.2);
    VersionForward(db, source, target, q);
  }

  lemma ProposalMoved(db: Database, source: Id, target: Id)
    ensures var d := ScopeOps.Rehomed(db, source, target);
      d.proposals.Keys == db.proposals.Keys &&
      forall i :: i in db.proposals ==> d.proposals[i] == db.proposals[i].(scope := ScopeOps.Home(source, target, db.proposals[i].scope))
  {
  }

  // ---------------------------------------------------------------- the ledger moves with them

  lemma RehomedComplete(db: Database, source: Id, target: Id)
    requires Complete(db.records, db.versions) && KeysApart(db, source, target)
    ensures var d := ScopeOps.Rehomed(db, source, target); Complete(d.records, d.versions)
  {
    hide ScopeOps.Rehomed, KeysApart, Copies;
    var d := ScopeOps.Rehomed(db, source, target);
    forall k | k in d.records ensures CompleteAt(k, d.records[k], d.versions) {
      var q := RecordBack(db, source, target, k);
      assert CompleteAt(q, db.records[q], db.versions);
      forall n: nat | 1 <= n <= d.records[k].version ensures (k.0, k.1, n) in d.versions {
        VersionForward(db, source, target, (q.0, q.1, n));
      }
      VersionForward(db, source, target, (q.0, q.1, db.records[q].version));
    }
  }

  lemma RehomedExact(db: Database, source: Id, target: Id)
    requires Exact(db.records, db.versions) && KeysApart(db, source, target)
    ensures var d := ScopeOps.Rehomed(db, source, target); Exact(d.records, d.versions)
  {
    hide ScopeOps.Rehomed, KeysApart;
    var d := ScopeOps.Rehomed(db, source, target);
    forall k | k in d.versions ensures ExactAt(k, d.records) {
      var q := VersionBack(db, source, target, k);
      assert ExactAt(q, db.records);
      RecordForward(db, source, target, (q.0, q.1));
    }
  }

  lemma RehomedSourced(db: Database, source: Id, target: Id)
    requires Sourced(db.versions, db.proposals) && Applied(db.versions, db.proposals) && KeysApart(db, source, target)
    ensures var d := ScopeOps.Rehomed(db, source, target); Sourced(d.versions, d.proposals) && Applied(d.versions, d.proposals)
  {
    hide ScopeOps.Rehomed, KeysApart;
    var d := ScopeOps.Rehomed(db, source, target);
    ProposalMoved(db, source, target);
    forall k | k in d.versions ensures FromProposal(k, d.versions[k], d.proposals) {
      var q := VersionBack(db, source, target, k);
      assert FromProposal(q, db.versions[q], db.proposals);
    }
    forall i | i in d.proposals && d.proposals[i].status == Accepted ensures AppliedAt(i, d.proposals[i], d.versions) {
      var p := db.proposals[i];
      assert AppliedAt(i, p, db.versions);
      VersionForward(db, source, target, (p.scope, p.key, p.expected + 1));
    }
  }

  lemma RehomedVetted(cfg: Config, db: Database, source: Id, target: Id)
    requires Vetted(db.scopes, db.proposals) && Scanned(cfg, db.proposals) && source in db.scopes && db.scopes[source].kind != Personal
    ensures var d := ScopeOps.Rehomed(db, source, target); Vetted(d.scopes, d.proposals) && Scanned(cfg, d.proposals)
  {
    ProposalMoved(db, source, target);
    RehomedScopes(db, source, target);
    hide ScopeOps.Rehomed, MemoryOps.MemoryFindings;
  }

  lemma RehomedScopes(db: Database, source: Id, target: Id)
    ensures ScopeOps.Rehomed(db, source, target).scopes == db.scopes
  {
  }

  lemma MergedAudited(cfg: Config, db: Database, a: Id, op: ScopeOps.ScopeOp)
    requires Audited(cfg, db) && Placed(db) && a in db.principals && op.Merge? && ScopeOps.Merged(db, a, op).Ok?
    ensures Audited(cfg, ScopeOps.Merged(db, a, op).value)
  {
    hide Permitted, Chain, ScopeOps.Rehomed, ScopeOps.Retained, Ledger, Vetted, Scanned, HasAccessPlaced, PayloadPlaced,
         ScopeOps.ChildNamesCollide, ScopeOps.JobsCollide, ScopeOps.MemoryKeys;
    var org := db.principals[a].org;
    var chain := Chain(db.scopes, op.source).value;
    var adopted := db.(policies := ScopeOps.Retained(db.policies, org, chain, op.target),
                       scopes := ScopeOps.Adopted(db.scopes, op.source, op.target));
    MovedVetted(cfg, db, adopted);
    SameKeys(db, adopted, op.source);
    SameKeys(db, adopted, op.target);
    var d := ScopeOps.Rehomed(adopted, op.source, op.target);
    RehomedLedger(adopted, op.source, op.target);
    RehomedVetted(cfg, adopted, op.source, op.target);
    MovedVetted(cfg, d, ScopeOps.Dropped(d, op.source));
  }

  lemma RehomedLedger(db: Database, source: Id, target: Id)
    requires Ledger(db.records, db.versions, db.proposals) && KeysApart(db, source, target)
    ensures var d := ScopeOps.Rehomed(db, source, target); Ledger(d.records, d.versions, d.proposals)
  {
    hide ScopeOps.Rehomed, KeysApart, Complete, Exact, Sourced, Applied;
    RehomedComplete(db, source, target);
    RehomedExact(db, source, target);
    RehomedSourced(db, source, target);
  }

  /** A change of the scope table that changes no kind of a scope that stays. */
  lemma MovedVetted(cfg: Config, before: Database, after: Database)
    requires Vetted(before.scopes, before.proposals) && after.proposals == before.proposals
    requires forall s :: s in after.scopes ==> s in before.scopes && after.scopes[s].kind == before.scopes[s].kind
    ensures Vetted(after.scopes, after.proposals)
  {
  }

  lemma SameKeys(before: Database, after: Database, sid: Id)
    requires after == before.(policies := after.policies, scopes := after.scopes)
    ensures ScopeOps.MemoryKeys(after, sid) == ScopeOps.MemoryKeys(before, sid)
  {
  }

  // ---------------------------------------------------------------- every step

  /** A new scope cannot be one that an old proposal points to. */
  lemma GrownVetted(before: Database, after: Database)
    requires Vetted(before.scopes, before.proposals) && after.proposals == before.proposals
    requires ProposalsPlaced(before.scopes, before.proposals)
    requires forall s :: s in before.scopes && s in after.scopes ==> after.scopes[s].kind == before.scopes[s].kind
    ensures Vetted(after.scopes, after.proposals)
  {
  }

  ghost predicate KindsKept(before: Scopes, after: Scopes) {
    forall s :: s in before && s in after ==> after[s].kind == before[s].kind
  }

  lemma CreatedKinds(db: Database, a: Id, op: ScopeOps.ScopeOp)
    requires Known(db) && a in db.principals && op.CreateScope? && ScopeOps.Created(db, a, op).Ok?
    ensures KindsKept(db.scopes, ScopeOps.Created(db, a, op).value.scopes)
  {
    hide RequireRole, ScopeOps.NameTaken;
  }

  lemma MovedKinds(db: Database, a: Id, op: ScopeOps.ScopeOp)
    requires a in db.principals && op.Move? && ScopeOps.Moved(db, a, op).Ok?
    ensures KindsKept(db.scopes, ScopeOps.Moved(db, a, op).value.scopes)
  {
    hide RequireRole, Chain, ScopeOps.Retained, ScopeOps.NameTaken;
  }

  lemma DeletedKinds(cfg: Config, db: Database, a: Id, op: ScopeOps.ScopeOp)
    requires a in db.principals && op.DeleteScope? && ScopeOps.Deleted(cfg, db, a, op).Ok?
    ensures KindsKept(db.scopes, ScopeOps.Deleted(cfg, db, a, op).value.scopes)
  {
    hide RequireRole, Permitted, ScopeOps.HasData, ScopeOps.HasChild, Meter.Recounted;
  }

  lemma MergedKinds(db: Database, a: Id, op: ScopeOps.ScopeOp)
    requires a in db.principals && op.Merge? && ScopeOps.Merged(db, a, op).Ok?
    ensures KindsKept(db.scopes, ScopeOps.Merged(db, a, op).value.scopes)
  {
    hide Permitted, Chain, ScopeOps.Retained, ScopeOps.ChildNamesCollide, ScopeOps.JobsCollide, ScopeOps.MemoryKeys;
  }

  /** No operation changes the kind of a scope. */
  lemma ScopeOpKinds(cfg: Config, db: Database, a: Id, op: ScopeOps.ScopeOp)
    requires Known(db) && a in db.principals && ScopeOps.Performed(cfg, db, a, op).Ok?
    ensures KindsKept(db.scopes, ScopeOps.Performed(cfg, db, a, op).value.scopes)
  {
    hide ScopeOps.Created, ScopeOps.Moved, ScopeOps.Deleted, ScopeOps.Merged, ScopeOps.HasPersonal;
    match op
    case CreateScope(_, _, _, _) => CreatedKinds(db, a, op);
    case Move(_, _) => MovedKinds(db, a, op);
    case DeleteScope(_, _) => DeletedKinds(cfg, db, a, op);
    case Merge(_, _) => MergedKinds(db, a, op);
    case _ =>
  }

  lemma SameLedger(cfg: Config, before: Database, after: Database)
    requires Audited(cfg, before) && Placed(before) && KindsKept(before.scopes, after.scopes)
    requires after.records == before.records && after.versions == before.versions && after.proposals == before.proposals
    ensures Audited(cfg, after)
  {
    hide Ledger, Scanned;
    GrownVetted(before, after);
  }

  lemma ScopeOpAudited(cfg: Config, db: Database, a: Id, op: ScopeOps.ScopeOp)
    requires Audited(cfg, db) && Placed(db) && a in db.principals && ScopeOps.Performed(cfg, db, a, op).Ok?
    ensures Audited(cfg, ScopeOps.Performed(cfg, db, a, op).value)
  {
    hide Audited, HasAccessPlaced, PayloadPlaced, ScopeOps.Created, ScopeOps.PolicySet, ScopeOps.OwnerSet, ScopeOps.Moved,
         ScopeOps.Deleted, ScopeOps.Merged, ScopeOps.PersonalEnsured;
    if op.DeleteScope? { DeletedAudited(cfg, db, a, op); }
    else if op.Merge? { MergedAudited(cfg, db, a, op); }
    else {
      ScopeOpKinds(cfg, db, a, op);
      SameLedger(cfg, db, ScopeOps.Performed(cfg, db, a, op).value);
    }
  }

  lemma MemoryOpAudited(cfg: Config, db: Database, a: Id, op: MemoryOps.MemoryOp)
    requires Audited(cfg, db) && Placed(db) && a in db.principals && MemoryOps.Performed(cfg, db, a, op).Ok?
    ensures Audited(cfg, MemoryOps.Performed(cfg, db, a, op).value)
  {
    hide Audited, Placed, MemoryOps.Proposed, MemoryOps.Reviewed, MemoryOps.KeyDeleted, MemoryOps.Sent;
    match op
    case Propose(_, _, _, _, _, _, _) => ProposedAudited(cfg, db, a, op);
    case Review(_, _) => ReviewedAudited(cfg, db, a, op);
    case DeleteKey(_, _) => KeyDeletedAudited(cfg, db, a, op);
    case Send(_, _, _, _) => SameLedger(cfg, db, MemoryOps.Performed(cfg, db, a, op).value);
  }

  lemma DispatchAudited(cfg: Config, db: Database, who: Identity, op: Op)
    requires Audited(cfg, db) && Placed(db) && Dispatched(cfg, db, who, op).Ok?
    ensures Audited(cfg, Dispatched(cfg, db, who, op).value)
  {
    hide Audited, HasAccessPlaced, PayloadPlaced, ScopeOps.Performed, PeopleOps.Performed, MemoryOps.Performed, JobOps.Performed,
         SlotOps.Performed;
    var d := Dispatched(cfg, db, who, op).value;
    match op
    case OnScopes(o) => ScopeOpAudited(cfg, db, who.id, o);
    case OnPeople(o) =>
      PeopleFrame(cfg, db, who.id, o);
      PeopleGrow(cfg, db, who.id, o);
      SameLedger(cfg, db, d);
    case OnMemory(o) => MemoryOpAudited(cfg, db, who.id, o);
    case OnJobs(o) => JobFrame(cfg, db, who.id, o); SameLedger(cfg, db, d);
    case OnSlots(o) => SlotFrame(cfg, db, who.id, o); SameLedger(cfg, db, d);
  }

  lemma StepAudited(cfg: Config, db: Database, call: Call)
    requires Audited(cfg, db) && Placed(db)
    ensures Audited(cfg, Step(cfg, db, call))
  {
    hide Audited, HasAccessPlaced, PayloadPlaced, Dispatched, PeopleOps.OrganisationCreated;
    match call
    case Dispatch(who, op) => if Dispatched(cfg, db, who, op).Ok? { DispatchAudited(cfg, db, who, op); }
    case NewOrganisation(t) =>
      if PeopleOps.OrganisationCreated(db, t).Ok? {
        TenantFrame(db, t);
        TenantGrows(db, t);
        SameLedger(cfg, db, Step(cfg, db, call));
      }
    case Recalculate(_) => SameLedger(cfg, db, Step(cfg, db, call));
    case BillingAuthority(_) => SameLedger(cfg, db, Step(cfg, db, call));
  }
}
