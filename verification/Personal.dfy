/** Personal scopes: at most one for each principal, with one owner for ever, and changed by that owner alone. */
module PersonalProofs {
  import opened Base
  import opened Tables
  import opened ScopeTree
  import opened PlacementProofs
  import opened LedgerMergeProofs
  import opened JobLifeProofs
  import ScopeOps
  import PeopleOps
  import MemoryOps
  import JobOps
  import PayloadScan
  import SlotOps
  import Meter
  import opened Workspace

  type Owners = map<Id, Owner>

  ghost predicate IsPersonal(scopes: Scopes, s: Id) {
    s in scopes && scopes[s].kind == Personal
  }

  /** Every personal scope has an owner, and no principal owns two. */
  ghost predicate OneEach(scopes: Scopes, owners: Owners) {
    && (forall s :: IsPersonal(scopes, s) ==> s in owners)
    && (forall s, t :: IsPersonal(scopes, s) && IsPersonal(scopes, t) && owners[s].principal == owners[t].principal ==> s == t)
  }

  /** Personal scopes stay, and so do their owners. */
  ghost predicate StillOwned(before: Database, after: Database) {
    forall s :: IsPersonal(before.scopes, s) && s in before.owners ==>
      IsPersonal(after.scopes, s) && s in after.owners && after.owners[s] == before.owners[s]
  }

  // ---------------------------------------------------------------- ownership

  lemma AddedPersonal(db: Database, p: Id, id: Id)
    requires OneEach(db.scopes, db.owners) && db.scopes.Keys <= db.used && OwnersPlaced(db.scopes, db.principals, db.owners)
    requires p in db.principals && ScopeOps.PersonalEnsured(db, p, id).Ok?
    ensures var d := ScopeOps.PersonalEnsured(db, p, id).value; OneEach(d.scopes, d.owners) && StillOwned(db, d)
  {
    if !ScopeOps.HasPersonal(db, p) {
      forall s | IsPersonal(db.scopes, s) ensures db.owners[s].principal != p {
        assert Lives(db.scopes, s, db.owners[s].org) && Belongs(db.principals, db.owners[s].principal, db.owners[s].org);
        assert !ScopeOps.PersonalOf(db, s, p);
      }
    }
  }

  lemma CreatedOwned(db: Database, a: Id, op: ScopeOps.ScopeOp)
    requires OneEach(db.scopes, db.owners) && Known(db) && a in db.principals && op.CreateScope? && ScopeOps.Created(db, a, op).Ok?
    ensures var d := ScopeOps.Created(db, a, op).value; OneEach(d.scopes, d.owners) && StillOwned(db, d)
  {
    hide RequireRole, ScopeOps.NameTaken;
  }

  lemma OwnerSetOwned(db: Database, a: Id, op: ScopeOps.ScopeOp)
    requires OneEach(db.scopes, db.owners) && a in db.principals && op.SetOwner? && ScopeOps.OwnerSet(db, a, op).Ok?
    ensures var d := ScopeOps.OwnerSet(db, a, op).value; OneEach(d.scopes, d.owners) && StillOwned(db, d)
  {
  }

  lemma MovedOwned(db: Database, a: Id, op: ScopeOps.ScopeOp)
    requires OneEach(db.scopes, db.owners) && a in db.principals && op.Move? && ScopeOps.Moved(db, a, op).Ok?
    ensures var d := ScopeOps.Moved(db, a, op).value; OneEach(d.scopes, d.owners) && StillOwned(db, d)
  {
    hide RequireRole, Chain, ScopeOps.NameTaken, ScopeOps.Retained;
  }

  lemma DeletedOwned(cfg: Config, db: Database, a: Id, op: ScopeOps.ScopeOp)
    requires OneEach(db.scopes, db.owners) && a in db.principals && op.DeleteScope? && ScopeOps.Deleted(cfg, db, a, op).Ok?
    ensures var d := ScopeOps.Deleted(cfg, db, a, op).value; OneEach(d.scopes, d.owners) && StillOwned(db, d)
  {
    hide OneEach, StillOwned;
    DeletedOwners(cfg, db, a, op);
    DroppedOwned(db, op.scope);
    OwnedAs(db, ScopeOps.Deleted(cfg, db, a, op).value, db.scopes - {op.scope}, db.owners - {op.scope});
  }

  lemma DeletedOwners(cfg: Config, db: Database, a: Id, op: ScopeOps.ScopeOp)
    requires a in db.principals && op.DeleteScope? && ScopeOps.Deleted(cfg, db, a, op).Ok?
    ensures op.scope in db.scopes && db.scopes[op.scope].kind != Personal
    ensures var d := ScopeOps.Deleted(cfg, db, a, op).value; d.scopes == db.scopes - {op.scope} && d.owners == db.owners - {op.scope}
  {
    hide RequireRole, Permitted, ScopeOps.HasChild, ScopeOps.HasData, ScopeOps.Purged, Meter.Recounted;
    PurgedTables(db, db.principals[a].org, op.scope);
  }

  lemma PurgedTables(db: Database, org: Id, sid: Id)
    ensures var d := ScopeOps.Purged(db, org, sid); d.scopes == db.scopes && d.owners == db.owners
  {
  }

  lemma DroppedOwned(db: Database, sid: Id)
    requires OneEach(db.scopes, db.owners) && sid in db.scopes && db.scopes[sid].kind != Personal
    ensures var scopes, owners := db.scopes - {sid}, db.owners - {sid};
      OneEach(scopes, owners) && StillOwned(db, db.(scopes := scopes, owners := owners))
  {
  }

  lemma MergedOwned(db: Database, a: Id, op: ScopeOps.ScopeOp)
    requires OneEach(db.scopes, db.owners) && a in db.principals && op.Merge? && ScopeOps.Merged(db, a, op).Ok?
    ensures var d := ScopeOps.Merged(db, a, op).value; OneEach(d.scopes, d.owners) && StillOwned(db, d)
  {
    hide Permitted, Chain, ScopeOps.Retained, ScopeOps.ChildNamesCollide, ScopeOps.JobsCollide, ScopeOps.MemoryKeys,
         ScopeOps.Adopted, ScopeOps.Rehomed, OneEach, StillOwned;
    AdoptedOwned(db, op.source, op.target);
    RehomedTables(db.(policies := ScopeOps.Retained(db.policies, db.principals[a].org, Chain(db.scopes, op.source).value, op.target),
                      scopes := ScopeOps.Adopted(db.scopes, op.source, op.target)), op.source, op.target);
    OwnedAs(db, ScopeOps.Merged(db, a, op).value, ScopeOps.Adopted(db.scopes, op.source, op.target) - {op.source}, db.owners - {op.source});
  }

  lemma OwnedAs(before: Database, after: Database, scopes: Scopes, owners: Owners)
    requires after.scopes == scopes && after.owners == owners && StillOwned(before, before.(scopes := scopes, owners := owners))
    ensures StillOwned(before, after)
  {
  }

  lemma RehomedTables(db: Database, source: Id, target: Id)
    ensures var d := ScopeOps.Rehomed(db, source, target); d.scopes == db.scopes && d.owners == db.owners
  {
    hide ScopeOps.RehomedRecordKeys, ScopeOps.RehomedVersionKeys;
  }

  lemma AdoptedOwned(db: Database, source: Id, target: Id)
    requires OneEach(db.scopes, db.owners) && source in db.scopes && db.scopes[source].kind != Personal
    ensures var scopes, owners := ScopeOps.Adopted(db.scopes, source, target) - {source}, db.owners - {source};
      OneEach(scopes, owners) && StillOwned(db, db.(scopes := scopes, owners := owners))
  {
  }

  lemma ScopeOpOwned(cfg: Config, db: Database, a: Id, op: ScopeOps.ScopeOp)
    requires OneEach(db.scopes, db.owners) && Placed(db) && a in db.principals && ScopeOps.Performed(cfg, db, a, op).Ok?
    ensures var d := ScopeOps.Performed(cfg, db, a, op).value; OneEach(d.scopes, d.owners) && StillOwned(db, d)
  {
    hide ScopeOps.Created, ScopeOps.OwnerSet, ScopeOps.Moved, ScopeOps.Deleted, ScopeOps.Merged, ScopeOps.PersonalEnsured,
         OneEach, PayloadPlaced, OwnersPlaced, PoliciesPlaced, GrantsPlaced;
    match op
    case CreateScope(_, _, _, _) => CreatedOwned(db, a, op);
    case SetPolicy(_, _, _, _) =>
    case SetOwner(_, _) => OwnerSetOwned(db, a, op);
    case Move(_, _) => MovedOwned(db, a, op);
    case DeleteScope(_, _) => DeletedOwned(cfg, db, a, op);
    case Merge(_, _) => MergedOwned(db, a, op);
    case OpenPersonal(id) => AddedPersonal(db, a, id);
  }

  lemma PrincipalCreatedOwned(cfg: Config, db: Database, a: Id, op: PeopleOps.PeopleOp)
    requires OneEach(db.scopes, db.owners) && Placed(db)
    requires a in db.principals && op.CreatePrincipal? && PeopleOps.PrincipalCreated(cfg, db, a, op).Ok?
    ensures var d := PeopleOps.PrincipalCreated(cfg, db, a, op).value; OneEach(d.scopes, d.owners) && StillOwned(db, d)
  {
    hide ScopeOps.PersonalEnsured, PeopleOps.NameOrTokenTaken, Meter.Admitted, PayloadPlaced, PoliciesPlaced, GrantsPlaced, OneEach;
    var row := Principal(db.principals[a].org, op.name, op.digest, false, true, op.now);
    var d := PeopleOps.PrincipalCreated(cfg, db, a, op).value;
    var middle := db.(used := db.used + {op.id}, principals := db.principals[op.id := row], usage := d.usage);
    AddedPersonal(middle, op.id, op.personal);
  }

  lemma PeopleOpOwned(cfg: Config, db: Database, a: Id, op: PeopleOps.PeopleOp)
    requires OneEach(db.scopes, db.owners) && Placed(db) && a in db.principals && PeopleOps.Performed(cfg, db, a, op).Ok?
    ensures var d := PeopleOps.Performed(cfg, db, a, op).value; OneEach(d.scopes, d.owners) && StillOwned(db, d)
  {
    hide OneEach, Placed, PeopleOps.PrincipalCreated, RequireRole, PeopleOps.ActiveAdmins;
    if op.CreatePrincipal? { PrincipalCreatedOwned(cfg, db, a, op); }
  }

  lemma TenantOwned(db: Database, t: PeopleOps.Tenant)
    requires OneEach(db.scopes, db.owners) && Placed(db) && PeopleOps.OrganisationCreated(db, t).Ok?
    ensures var d := PeopleOps.OrganisationCreated(db, t).value; OneEach(d.scopes, d.owners) && StillOwned(db, d)
  {
    hide ScopeOps.PersonalEnsured, PeopleOps.NameOrTokenTaken, LocksPlaced, RecordsPlaced, VersionsPlaced, ProposalsPlaced,
         MessagesPlaced, JobsPlaced, PoliciesPlaced, GrantsPlaced, OneEach;
    var d := db.(used := db.used + {t.org, t.root, t.admin},
                 orgs := db.orgs[t.org := t.name],
                 scopes := db.scopes[t.root := Scope(t.org, None, t.name, Organisation)],
                 principals := db.principals[t.admin := Principal(t.org, t.adminName, t.digest, true, true, t.now)]);
    RootOwned(db, t, d.scopes);
    AddedPersonal(d, t.admin, t.personal);
  }

  lemma RootOwned(db: Database, t: PeopleOps.Tenant, scopes: Scopes)
    requires OneEach(db.scopes, db.owners) && t.root !in db.scopes
    requires scopes == db.scopes[t.root := Scope(t.org, None, t.name, Organisation)]
    ensures OneEach(scopes, db.owners) && StillOwned(db, db.(scopes := scopes))
  {
  }

  lemma DispatchOwned(cfg: Config, db: Database, who: Identity, op: Op)
    requires OneEach(db.scopes, db.owners) && Placed(db) && Dispatched(cfg, db, who, op).Ok?
    ensures var d := Dispatched(cfg, db, who, op).value; OneEach(d.scopes, d.owners) && StillOwned(db, d)
  {
    hide OneEach, Placed, ScopeOps.Performed, PeopleOps.Performed, MemoryOps.Performed, JobOps.Performed, SlotOps.Performed;
    match op
    case OnScopes(o) => ScopeOpOwned(cfg, db, who.id, o);
    case OnPeople(o) => PeopleOpOwned(cfg, db, who.id, o);
    case OnMemory(o) => MemoryFrame(cfg, db, who.id, o);
    case OnJobs(o) => JobFrame(cfg, db, who.id, o);
    case OnSlots(o) => SlotFrame(cfg, db, who.id, o);
  }

  /** No step gives a principal a second personal scope, removes one, or changes its owner. */
  lemma StepOwned(cfg: Config, db: Database, call: Call)
    requires OneEach(db.scopes, db.owners) && Placed(db)
    ensures var d := Step(cfg, db, call); OneEach(d.scopes, d.owners) && StillOwned(db, d)
  {
    hide OneEach, Placed, Dispatched, PeopleOps.OrganisationCreated;
    match call
    case Dispatch(who, op) => if Dispatched(cfg, db, who, op).Ok? { DispatchOwned(cfg, db, who, op); }
    case NewOrganisation(t) => if PeopleOps.OrganisationCreated(db, t).Ok? { TenantOwned(db, t); }
    case Recalculate(_) =>
    case BillingAuthority(_) =>
  }

  // ---------------------------------------------------------------- the jobs of a personal scope

  /** The owner of a personal scope created every job in it, for itself. */
  ghost predicate OwnJobs(scopes: Scopes, owners: Owners, jobs: map<Id, Job>) {
    forall j :: j in jobs && IsPersonal(scopes, jobs[j].scope) && jobs[j].scope in owners ==>
      jobs[j].creator == jobs[j].assignee == owners[jobs[j].scope].principal
  }

  /** The job keeps its parties and its scope, or it is in no personal scope any more. */
  ghost predicate KeptJob(before: Job, after: Job, scopes: Scopes) {
    && after.creator == before.creator && after.assignee == before.assignee
    && (after.scope == before.scope || !IsPersonal(scopes, after.scope))
  }

  ghost predicate KeptJobs(before: map<Id, Job>, after: map<Id, Job>, scopes: Scopes) {
    forall j :: j in after ==> j in before && KeptJob(before[j], after[j], scopes)
  }

  lemma KeptOwnJobs(before: Database, after: Database)
    requires OwnJobs(before.scopes, before.owners, before.jobs) && OneEach(before.scopes, before.owners)
    requires JobsPlaced(before.scopes, before.jobs) && KindsKept(before.scopes, after.scopes) && StillOwned(before, after)
    requires KeptJobs(before.jobs, after.jobs, after.scopes)
    ensures OwnJobs(after.scopes, after.owners, after.jobs)
  {
    forall j | j in after.jobs && IsPersonal(after.scopes, after.jobs[j].scope) && after.jobs[j].scope in after.owners
      ensures after.jobs[j].creator == after.jobs[j].assignee == after.owners[after.jobs[j].scope].principal
    {
      assert KeptJob(before.jobs[j], after.jobs[j], after.scopes);
      assert Lives(before.scopes, before.jobs[j].scope, before.jobs[j].org);
      assert IsPersonal(before.scopes, before.jobs[j].scope);
    }
  }

  /** On a personal scope only the owner has a role. */
  lemma OnlyOwnerHasRole(db: Database, p: Id, s: Id)
    requires IsPersonal(db.scopes, s) && s in db.owners && p in db.principals
    requires var role := RoleFor(db, p, s); role.Ok? && role.value.Some?
    ensures db.owners[s].principal == p
  {
    hide Chain, GrantedRole;
  }

  lemma JobCreatedOwn(cfg: Config, db: Database, a: Id, op: JobOps.JobOp)
    requires OwnJobs(db.scopes, db.owners, db.jobs) && a in db.principals && op.CreateJob? && JobOps.JobCreated(cfg, db, a, op).Ok?
    ensures OwnJobs(db.scopes, db.owners, JobOps.JobCreated(cfg, db, a, op).value.jobs)
  {
    hide RoleFor, Meter.Charged, JobOps.JobFindings, JobBytes, JobOps.Replayed, JobOps.SamePayload;
    if IsPersonal(db.scopes, op.scope) && op.scope in db.owners {
      OnlyOwnerHasRole(db, a, op.scope);
      OnlyOwnerHasRole(db, op.assignee, op.scope);
    }
  }

  lemma JobCreatedAt(cfg: Config, db: Database, a: Id, op: JobOps.JobOp, s: Id)
    requires Known(db) && a in db.principals && op.CreateJob? && JobOps.JobCreated(cfg, db, a, op).Ok?
    requires IsPersonal(db.scopes, s) && s in db.owners && db.owners[s].principal != a
    ensures JobsAt(db.jobs, JobOps.JobCreated(cfg, db, a, op).value.jobs, s)
  {
    hide RoleFor, Meter.Charged, JobOps.JobFindings, JobBytes, JobOps.Replayed, JobOps.SamePayload;
    if op.scope == s { OnlyOwnerHasRole(db, a, s); }
  }

  /** The caller may act on the job: it has a role on its scope, or it created the job. */
  ghost predicate Entitled(db: Database, a: Id, job: Job)
    requires a in db.principals
  {
    || job.creator == a
    || (job.scope in db.scopes && var role := RoleFor(db, a, job.scope); role.Ok? && role.value.Some?)
  }

  /** Claims, renewals, results, reviews and cancellations write one row and leave its parties and its scope. */
  ghost predicate OneJobWritten(db: Database, a: Id, j: Id, after: map<Id, Job>)
    requires a in db.principals
  {
    && j in db.jobs && j in after && after == db.jobs[j := after[j]]
    && after[j].creator == db.jobs[j].creator && after[j].assignee == db.jobs[j].assignee && after[j].scope == db.jobs[j].scope
    && Entitled(db, a, db.jobs[j])
  }

  lemma JobOpWrites(cfg: Config, db: Database, a: Id, op: JobOps.JobOp)
    requires a in db.principals && !op.CreateJob? && JobOps.Performed(cfg, db, a, op).Ok?
    ensures OneJobWritten(db, a, op.job, JobOps.Performed(cfg, db, a, op).value.jobs)
  {
    hide RoleFor, Meter.Charged, PayloadScan.Findings, FindingsBytes, Bytes;
  }

  lemma JobOpOwn(cfg: Config, db: Database, a: Id, op: JobOps.JobOp)
    requires OwnJobs(db.scopes, db.owners, db.jobs) && a in db.principals && JobOps.Performed(cfg, db, a, op).Ok?
    ensures OwnJobs(db.scopes, db.owners, JobOps.Performed(cfg, db, a, op).value.jobs)
  {
    hide JobOps.JobCreated, JobOps.JobClaimed, JobOps.JobRenewed, JobOps.JobSubmitted, JobOps.JobReviewed, JobOps.JobCancelled,
         Entitled;
    if op.CreateJob? { JobCreatedOwn(cfg, db, a, op); } else { JobOpWrites(cfg, db, a, op); }
  }

  lemma ScopeOpKept(cfg: Config, db: Database, a: Id, op: ScopeOps.ScopeOp)
    requires Known(db) && a in db.principals && ScopeOps.Performed(cfg, db, a, op).Ok?
    ensures var d := ScopeOps.Performed(cfg, db, a, op).value; KeptJobs(db.jobs, d.jobs, d.scopes)
  {
    hide ScopeOps.Created, ScopeOps.PolicySet, ScopeOps.OwnerSet, ScopeOps.Moved, ScopeOps.Deleted, ScopeOps.Merged,
         ScopeOps.PersonalEnsured;
    ScopeOpKinds(cfg, db, a, op);
    if op.DeleteScope? { DeletedKept(cfg, db, a, op); }
    else if op.Merge? { MergedJobs(db, a, op); MergeTarget(db, a, op); }
  }

  lemma DeletedKept(cfg: Config, db: Database, a: Id, op: ScopeOps.ScopeOp)
    requires a in db.principals && op.DeleteScope? && ScopeOps.Deleted(cfg, db, a, op).Ok?
    ensures var jobs := ScopeOps.Deleted(cfg, db, a, op).value.jobs;
      forall j :: j in jobs ==> j in db.jobs && jobs[j] == db.jobs[j]
  {
    hide RequireRole, Permitted, ScopeOps.HasChild, ScopeOps.HasData, ScopeOps.Purged, Meter.Recounted;
    PurgedJobs(db, db.principals[a].org, op.scope);
  }

  lemma PurgedJobs(db: Database, org: Id, sid: Id)
    ensures var jobs := ScopeOps.Purged(db, org, sid).jobs; forall j :: j in jobs ==> j in db.jobs && jobs[j] == db.jobs[j]
  {
  }

  lemma MergeTarget(db: Database, a: Id, op: ScopeOps.ScopeOp)
    requires a in db.principals && op.Merge? && ScopeOps.Merged(db, a, op).Ok?
    ensures op.target in db.scopes && db.scopes[op.target].kind == Department
  {
    hide Permitted, Chain, ScopeOps.ChildNamesCollide, ScopeOps.MemoryKeys, ScopeOps.JobsCollide;
  }

  lemma DispatchOwnJobs(cfg: Config, db: Database, who: Identity, op: Op)
    requires OwnJobs(db.scopes, db.owners, db.jobs) && OneEach(db.scopes, db.owners) && Placed(db) && Dispatched(cfg, db, who, op).Ok?
    ensures var d := Dispatched(cfg, db, who, op).value; OwnJobs(d.scopes, d.owners, d.jobs)
  {
    hide OwnJobs, OneEach, StillOwned, HasAccessPlaced, KindsKept, JobsPlaced, ScopeOps.Performed, PeopleOps.Performed,
         MemoryOps.Performed, JobOps.Performed, SlotOps.Performed;
    var d := Dispatched(cfg, db, who, op).value;
    DispatchOwned(cfg, db, who, op);
    match op
    case OnScopes(o) => ScopeOpKinds(cfg, db, who.id, o); ScopeOpKept(cfg, db, who.id, o); KeptOwnJobs(db, d);
    case OnPeople(o) => PeopleFrame(cfg, db, who.id, o); PeopleGrow(cfg, db, who.id, o); GrownKinds(db.scopes, d.scopes); KeptOwnJobs(db, d);
    case OnMemory(o) => MemoryFrame(cfg, db, who.id, o);
    case OnJobs(o) => JobFrame(cfg, db, who.id, o); JobOpOwn(cfg, db, who.id, o);
    case OnSlots(o) => SlotFrame(cfg, db, who.id, o);
  }

  lemma GrownKinds(before: Scopes, after: Scopes)
    requires ScopesGrew(before, after)
    ensures KindsKept(before, after)
  {
  }

  /** In every step the jobs of a personal scope stay its owner's own. */
  lemma StepOwnJobs(cfg: Config, db: Database, call: Call)
    requires OwnJobs(db.scopes, db.owners, db.jobs) && OneEach(db.scopes, db.owners) && Placed(db)
    ensures var d := Step(cfg, db, call); OwnJobs(d.scopes, d.owners, d.jobs)
  {
    hide OwnJobs, OneEach, StillOwned, HasAccessPlaced, KindsKept, JobsPlaced, Dispatched, PeopleOps.OrganisationCreated;
    StepOwned(cfg, db, call);
    match call
    case Dispatch(who, op) => if Dispatched(cfg, db, who, op).Ok? { DispatchOwnJobs(cfg, db, who, op); }
    case NewOrganisation(t) =>
      if PeopleOps.OrganisationCreated(db, t).Ok? {
        TenantFrame(db, t);
        TenantGrows(db, t);
        GrownKinds(db.scopes, Step(cfg, db, call).scopes);
        KeptOwnJobs(db, Step(cfg, db, call));
      }
    case Recalculate(_) =>
    case BillingAuthority(_) =>
  }

  // ---------------------------------------------------------------- who changes the contents of a personal scope

  ghost predicate RecordsAt(before: map<(Id, string), Record>, after: map<(Id, string), Record>, s: Id) {
    forall k :: k in before.Keys + after.Keys && k.0 == s ==> k in before && k in after && before[k] == after[k]
  }

  ghost predicate VersionsAt(before: map<(Id, string, nat), Version>, after: map<(Id, string, nat), Version>, s: Id) {
    forall k :: k in before.Keys + after.Keys && k.0 == s ==> k in before && k in after && before[k] == after[k]
  }

  ghost predicate ProposalsAt(before: map<Id, Proposal>, after: map<Id, Proposal>, s: Id) {
    && (forall i :: i in before && before[i].scope == s ==> i in after && after[i] == before[i])
    && (forall i :: i in after && after[i].scope == s ==> i in before && before[i] == after[i])
  }

  ghost predicate MessagesAt(before: map<Id, Message>, after: map<Id, Message>, s: Id) {
    && (forall i :: i in before && before[i].scope == s ==> i in after && after[i] == before[i])
    && (forall i :: i in after && after[i].scope == s ==> i in before && before[i] == after[i])
  }

  ghost predicate JobsAt(before: map<Id, Job>, after: map<Id, Job>, s: Id) {
    && (forall i :: i in before && before[i].scope == s ==> i in after && after[i] == before[i])
    && (forall i :: i in after && after[i].scope == s ==> i in before && before[i] == after[i])
  }

  /** No memory row, message or job of the scope changed, appeared or vanished. */
  ghost predicate SameContents(before: Database, after: Database, s: Id) {
    && RecordsAt(before.records, after.records, s)
    && VersionsAt(before.versions, after.versions, s)
    && ProposalsAt(before.proposals, after.proposals, s)
    && MessagesAt(before.messages, after.messages, s)
    && JobsAt(before.jobs, after.jobs, s)
  }

  lemma Unread(before: Database, after: Database, s: Id)
    requires after.records == before.records || RecordsAt(before.records, after.records, s)
    requires after.versions == before.versions || VersionsAt(before.versions, after.versions, s)
    requires after.proposals == before.proposals || ProposalsAt(before.proposals, after.proposals, s)
    requires after.messages == before.messages || MessagesAt(before.messages, after.messages, s)
    requires after.jobs == before.jobs || JobsAt(before.jobs, after.jobs, s)
    ensures SameContents(before, after, s)
  {
  }

  /** On a personal scope only the owner passes a role check. */
  lemma OnlyOwnerPasses(db: Database, a: Id, s: Id, minimum: Role)
    requires IsPersonal(db.scopes, s) && s in db.owners && a in db.principals && RequireRole(db, a, s, minimum).Pass?
    ensures db.owners[s].principal == a
  {
    hide Chain, GrantedRole;
  }

  lemma DeletedContents(cfg: Config, db: Database, a: Id, op: ScopeOps.ScopeOp, s: Id)
    requires a in db.principals && op.DeleteScope? && ScopeOps.Deleted(cfg, db, a, op).Ok? && IsPersonal(db.scopes, s)
    ensures SameContents(db, ScopeOps.Deleted(cfg, db, a, op).value, s)
  {
    hide RequireRole, Permitted, ScopeOps.HasChild, ScopeOps.HasData, Meter.Recounted, ScopeOps.Purged;
    var org := db.principals[a].org;
    PurgedContents(db, org, op.scope, s);
    Unread(db, db, s);
  }

  lemma PurgedContents(db: Database, org: Id, sid: Id, s: Id)
    requires s != sid
    ensures SameContents(db, ScopeOps.Purged(db, org, sid), s)
  {
  }

  lemma RehomedContents(db: Database, source: Id, target: Id, s: Id)
    requires s != source && s != target
    ensures SameContents(db, ScopeOps.Rehomed(db, source, target), s)
  {
    hide SameContents, RecordsAt, VersionsAt, ProposalsAt, MessagesAt, JobsAt, ScopeOps.Rehomed;
    RehomedRecordsAt(db, source, target, s);
    RehomedVersionsAt(db, source, target, s);
    RehomedRowsAt(db, source, target, s);
    Unread(db, ScopeOps.Rehomed(db, source, target), s);
  }

  lemma RehomedRowsAt(db: Database, source: Id, target: Id, s: Id)
    requires s != source && s != target
    ensures var d := ScopeOps.Rehomed(db, source, target);
      ProposalsAt(db.proposals, d.proposals, s) && MessagesAt(db.messages, d.messages, s) && JobsAt(db.jobs, d.jobs, s)
  {
    hide ScopeOps.RehomedRecordKeys, ScopeOps.RehomedVersionKeys, ProposalsAt, MessagesAt, JobsAt;
    RehomedProposalsAt(db.proposals, source, target, s);
    RehomedMessagesAt(db.messages, source, target, s);
    RehomedJobsAt(db.jobs, source, target, s);
  }

  lemma RehomedProposalsAt(rows: map<Id, Proposal>, source: Id, target: Id, s: Id)
    requires s != source && s != target
    ensures ProposalsAt(rows, map i | i in rows :: rows[i].(scope := ScopeOps.Home(source, target, rows[i].scope)), s)
  {
  }

  lemma RehomedMessagesAt(rows: map<Id, Message>, source: Id, target: Id, s: Id)
    requires s != source && s != target
    ensures MessagesAt(rows, map i | i in rows :: rows[i].(scope := ScopeOps.Home(source, target, rows[i].scope)), s)
  {
  }

  lemma RehomedJobsAt(rows: map<Id, Job>, source: Id, target: Id, s: Id)
    requires s != source && s != target
    ensures JobsAt(rows, map i | i in rows :: rows[i].(scope := ScopeOps.Home(source, target, rows[i].scope)), s)
  {
  }

  lemma RehomedRecordsAt(db: Database, source: Id, target: Id, s: Id)
    requires s != source && s != target
    ensures RecordsAt(db.records, ScopeOps.Rehomed(db, source, target).records, s)
  {
    var after := ScopeOps.Rehomed(db, source, target).records;
    forall k | k in db.records.Keys + after.Keys && k.0 == s ensures k in db.records && k in after && db.records[k] == after[k] {
      if k in db.records { assert k == (ScopeOps.Home(source, target, k.0), k.1); }
    }
  }

  lemma RehomedVersionsAt(db: Database, source: Id, target: Id, s: Id)
    requires s != source && s != target
    ensures VersionsAt(db.versions, ScopeOps.Rehomed(db, source, target).versions, s)
  {
    var after := ScopeOps.Rehomed(db, source, target).versions;
    forall k | k in db.versions.Keys + after.Keys && k.0 == s ensures k in db.versions && k in after && db.versions[k] == after[k] {
      if k in db.versions { assert k == (ScopeOps.Home(source, target, k.0), k.1, k.2); }
    }
  }

  lemma MergedContents(db: Database, a: Id, op: ScopeOps.ScopeOp, s: Id)
    requires a in db.principals && op.Merge? && ScopeOps.Merged(db, a, op).Ok? && IsPersonal(db.scopes, s)
    ensures SameContents(db, ScopeOps.Merged(db, a, op).value, s)
  {
    hide Permitted, Chain, ScopeOps.Retained, ScopeOps.ChildNamesCollide, ScopeOps.JobsCollide, ScopeOps.MemoryKeys,
         ScopeOps.Adopted, ScopeOps.Rehomed, RecordsAt, VersionsAt, ProposalsAt, MessagesAt, JobsAt;
    var org := db.principals[a].org;
    var adopted := db.(policies := ScopeOps.Retained(db.policies, org, Chain(db.scopes, op.source).value, op.target),
                       scopes := ScopeOps.Adopted(db.scopes, op.source, op.target));
    RehomedContents(adopted, op.source, op.target, s);
  }

  lemma ScopeOpContents(cfg: Config, db: Database, a: Id, op: ScopeOps.ScopeOp, s: Id)
    requires a in db.principals && ScopeOps.Performed(cfg, db, a, op).Ok? && IsPersonal(db.scopes, s)
    ensures SameContents(db, ScopeOps.Performed(cfg, db, a, op).value, s)
  {
    hide ScopeOps.Created, ScopeOps.PolicySet, ScopeOps.OwnerSet, ScopeOps.Moved, ScopeOps.Deleted, ScopeOps.Merged,
         ScopeOps.PersonalEnsured, SameContents;
    if op.DeleteScope? { DeletedContents(cfg, db, a, op, s); }
    else if op.Merge? { MergedContents(db, a, op, s); }
    else { Unread(db, ScopeOps.Performed(cfg, db, a, op).value, s); }
  }

  lemma ProposedContents(cfg: Config, db: Database, a: Id, op: MemoryOps.MemoryOp, s: Id)
    requires Known(db) && a in db.principals && op.Propose? && MemoryOps.Proposed(cfg, db, a, op).Ok?
    requires IsPersonal(db.scopes, s) && s in db.owners && db.owners[s].principal != a
    ensures SameContents(db, MemoryOps.Proposed(cfg, db, a, op).value, s)
  {
    hide RequireRole, MemoryOps.MemoryFindings, Meter.Charged, ProposalBytes, SameContents;
    if op.scope == s { OnlyOwnerPasses(db, a, s, Writer); }
    var d := MemoryOps.Proposed(cfg, db, a, op).value;
    assert ProposalsAt(db.proposals, d.proposals, s);
    Unread(db, d, s);
  }

  lemma SettledContents(db: Database, pid: Id, status: ProposalStatus, reviewer: Id, s: Id)
    requires pid in db.proposals && db.proposals[pid].scope != s
    ensures ProposalsAt(db.proposals, MemoryOps.Settled(db, pid, status, reviewer).proposals, s)
  {
  }

  lemma SettledSame(db: Database, pid: Id, status: ProposalStatus, reviewer: Id, s: Id)
    requires pid in db.proposals && db.proposals[pid].scope != s
    ensures SameContents(db, MemoryOps.Settled(db, pid, status, reviewer), s)
  {
    hide SameContents, ProposalsAt;
    SettledContents(db, pid, status, reviewer, s);
    Unread(db, MemoryOps.Settled(db, pid, status, reviewer), s);
  }

  lemma PromotedContents(db: Database, pid: Id, s: Id)
    requires pid in db.proposals && db.proposals[pid].scope != s
    ensures var d := MemoryOps.Promoted(db, pid);
      RecordsAt(db.records, d.records, s) && VersionsAt(db.versions, d.versions, s) && d == db.(records := d.records, versions := d.versions)
  {
  }

  lemma AcceptedContents(cfg: Config, db: Database, a: Id, pid: Id, s: Id)
    requires pid in db.proposals && db.proposals[pid].scope != s && MemoryOps.AcceptedInto(cfg, db, a, pid).Ok?
    ensures SameContents(db, MemoryOps.AcceptedInto(cfg, db, a, pid).value, s)
  {
    hide Meter.Charged, MemoryOps.Promoted, SameContents, RecordsAt, VersionsAt, ProposalsAt;
    var p := db.proposals[pid];
    var charged := Meter.Charged(cfg, db, p.org, Bytes(p.content) + Bytes(p.source)).value;
    SettledContents(charged, pid, Accepted, a, s);
    PromotedContents(MemoryOps.Settled(charged, pid, Accepted, a), pid, s);
    Unread(db, MemoryOps.AcceptedInto(cfg, db, a, pid).value, s);
  }

  /** Who may review a proposal of a personal scope is its owner. */
  lemma ReviewElsewhere(db: Database, a: Id, pid: Id, s: Id)
    requires a in db.principals && MemoryOps.MayReview(db, a, pid).Pass?
    requires IsPersonal(db.scopes, s) && s in db.owners && db.owners[s].principal != a
    ensures pid in db.proposals && db.proposals[pid].scope != s
  {
    hide RequireRole;
    if db.proposals[pid].scope == s { OnlyOwnerPasses(db, a, s, Reviewer); }
  }

  lemma ReviewedContents(cfg: Config, db: Database, a: Id, op: MemoryOps.MemoryOp, s: Id)
    requires a in db.principals && op.Review? && MemoryOps.Reviewed(cfg, db, a, op).Ok?
    requires IsPersonal(db.scopes, s) && s in db.owners && db.owners[s].principal != a
    ensures SameContents(db, MemoryOps.Reviewed(cfg, db, a, op).value, s)
  {
    hide MemoryOps.MayReview, MemoryOps.AcceptedInto, MemoryOps.CurrentVersion, MemoryOps.Settled, SameContents;
    ReviewElsewhere(db, a, op.proposal, s);
    var p := db.proposals[op.proposal];
    var held := db.(locks := db.locks + {(p.scope, p.key)});
    var d := MemoryOps.Reviewed(cfg, db, a, op).value;
    if !op.accept { SettledSame(db, op.proposal, Rejected, a, s); }
    else {
      if p.expected != MemoryOps.CurrentVersion(db, p.scope, p.key) { SettledSame(held, op.proposal, Conflicted, a, s); }
      else { AcceptedContents(cfg, held, a, op.proposal, s); }
      HeldContents(db, held, d, s);
    }
  }

  lemma HeldContents(db: Database, held: Database, after: Database, s: Id)
    requires held == db.(locks := held.locks) && SameContents(held, after, s)
    ensures SameContents(db, after, s)
  {
    hide RecordsAt, VersionsAt, ProposalsAt, MessagesAt, JobsAt;
  }

  lemma KeyDeletedContents(cfg: Config, db: Database, a: Id, op: MemoryOps.MemoryOp, s: Id)
    requires a in db.principals && op.DeleteKey? && MemoryOps.KeyDeleted(cfg, db, a, op).Ok?
    requires IsPersonal(db.scopes, s) && s in db.owners && db.owners[s].principal != a
    ensures SameContents(db, MemoryOps.KeyDeleted(cfg, db, a, op).value, s)
  {
    hide RequireRole, Permitted, MemoryOps.KeyExists, Meter.Recounted, SameContents;
    if op.scope == s { OnlyOwnerPasses(db, a, s, Admin); }
    var d := MemoryOps.KeyDeleted(cfg, db, a, op).value;
    assert RecordsAt(db.records, d.records, s) && VersionsAt(db.versions, d.versions, s) && ProposalsAt(db.proposals, d.proposals, s);
    Unread(db, d, s);
  }

  lemma SentContents(cfg: Config, db: Database, a: Id, op: MemoryOps.MemoryOp, s: Id)
    requires Known(db) && a in db.principals && op.Send? && MemoryOps.Sent(cfg, db, a, op).Ok?
    requires IsPersonal(db.scopes, s) && s in db.owners && db.owners[s].principal != a
    ensures SameContents(db, MemoryOps.Sent(cfg, db, a, op).value, s)
  {
    hide RequireRole, RoleFor, Meter.Charged, MessageBytes, SameContents;
    if op.scope == s { OnlyOwnerPasses(db, a, s, Writer); }
    var d := MemoryOps.Sent(cfg, db, a, op).value;
    assert MessagesAt(db.messages, d.messages, s);
    Unread(db, d, s);
  }

  lemma MemoryOpContents(cfg: Config, db: Database, a: Id, op: MemoryOps.MemoryOp, s: Id)
    requires Known(db) && a in db.principals && MemoryOps.Performed(cfg, db, a, op).Ok?
    requires IsPersonal(db.scopes, s) && s in db.owners && db.owners[s].principal != a
    ensures SameContents(db, MemoryOps.Performed(cfg, db, a, op).value, s)
  {
    hide SameContents, MemoryOps.Proposed, MemoryOps.Reviewed, MemoryOps.KeyDeleted, MemoryOps.Sent;
    match op
    case Propose(_, _, _, _, _, _, _) => ProposedContents(cfg, db, a, op, s);
    case Review(_, _) => ReviewedContents(cfg, db, a, op, s);
    case DeleteKey(_, _) => KeyDeletedContents(cfg, db, a, op, s);
    case Send(_, _, _, _) => SentContents(cfg, db, a, op, s);
  }

  /** A job operation of someone else writes no job of the scope: the others have no role there, and no job
      there is theirs to cancel. */
  lemma JobOpContents(cfg: Config, db: Database, a: Id, op: JobOps.JobOp, s: Id)
    requires Known(db) && OwnJobs(db.scopes, db.owners, db.jobs) && a in db.principals && JobOps.Performed(cfg, db, a, op).Ok?
    requires IsPersonal(db.scopes, s) && s in db.owners && db.owners[s].principal != a
    ensures JobsAt(db.jobs, JobOps.Performed(cfg, db, a, op).value.jobs, s)
  {
    hide JobOps.JobCreated, JobOps.JobClaimed, JobOps.JobRenewed, JobOps.JobSubmitted, JobOps.JobReviewed, JobOps.JobCancelled, RoleFor;
    if op.CreateJob? { JobCreatedAt(cfg, db, a, op, s); }
    else {
      JobOpWrites(cfg, db, a, op);
      var role := RoleFor(db, a, s);
      if role.Ok? && role.value.Some? { OnlyOwnerHasRole(db, a, s); }
    }
  }

  lemma DispatchContents(cfg: Config, db: Database, who: Identity, op: Op, s: Id)
    requires Known(db) && OwnJobs(db.scopes, db.owners, db.jobs) && IsPersonal(db.scopes, s) && s in db.owners && db.owners[s].principal != who.id
    requires Dispatched(cfg, db, who, op).Ok?
    ensures SameContents(db, Dispatched(cfg, db, who, op).value, s)
  {
    hide SameContents, RecordsAt, VersionsAt, ProposalsAt, MessagesAt, JobsAt, ScopeOps.Performed, PeopleOps.Performed, MemoryOps.Performed,
         JobOps.Performed, SlotOps.Performed;
    var d := Dispatched(cfg, db, who, op).value;
    match op
    case OnScopes(o) => ScopeOpContents(cfg, db, who.id, o, s);
    case OnPeople(o) => PeopleFrame(cfg, db, who.id, o); Unread(db, d, s);
    case OnMemory(o) => MemoryOpContents(cfg, db, who.id, o, s);
    case OnJobs(o) => JobFrame(cfg, db, who.id, o); JobOpContents(cfg, db, who.id, o, s); Unread(db, d, s);
    case OnSlots(o) => SlotFrame(cfg, db, who.id, o); Unread(db, d, s);
  }

  /** No dispatch but the owner's own ever changes the contents of a personal scope. */
  lemma OnlyOwnerChanges(cfg: Config, db: Database, call: Call, s: Id)
    requires Known(db) && OwnJobs(db.scopes, db.owners, db.jobs) && IsPersonal(db.scopes, s) && s in db.owners
    requires call.Dispatch? ==> call.who.id != db.owners[s].principal
    ensures SameContents(db, Step(cfg, db, call), s)
  {
    hide SameContents, RecordsAt, VersionsAt, ProposalsAt, MessagesAt, JobsAt, OwnJobs, Dispatched, PeopleOps.OrganisationCreated;
    var d := Step(cfg, db, call);
    match call
    case Dispatch(who, op) => if Dispatched(cfg, db, who, op).Ok? { DispatchContents(cfg, db, who, op, s); } else { Unread(db, d, s); }
    case NewOrganisation(t) => if PeopleOps.OrganisationCreated(db, t).Ok? { TenantFrame(db, t); } Unread(db, d, s);
    case Recalculate(_) => Unread(db, d, s);
    case BillingAuthority(_) => Unread(db, d, s);
  }

  lemma Same(before: Database, middle: Database, after: Database, s: Id)
    requires SameContents(before, middle, s) && SameContents(middle, after, s)
    ensures SameContents(before, after, s)
  {
    hide RecordsAt, VersionsAt, ProposalsAt, MessagesAt, JobsAt;
    SameMemory(before, middle, after, s);
    SameTraffic(before, middle, after, s);
  }

  lemma SameMemory(before: Database, middle: Database, after: Database, s: Id)
    requires RecordsAt(before.records, middle.records, s) && RecordsAt(middle.records, after.records, s)
    requires VersionsAt(before.versions, middle.versions, s) && VersionsAt(middle.versions, after.versions, s)
    ensures RecordsAt(before.records, after.records, s) && VersionsAt(before.versions, after.versions, s)
  {
  }

  lemma SameTraffic(before: Database, middle: Database, after: Database, s: Id)
    requires ProposalsAt(before.proposals, middle.proposals, s) && ProposalsAt(middle.proposals, after.proposals, s)
    requires MessagesAt(before.messages, middle.messages, s) && MessagesAt(middle.messages, after.messages, s)
    requires JobsAt(before.jobs, middle.jobs, s) && JobsAt(middle.jobs, after.jobs, s)
    ensures ProposalsAt(before.proposals, after.proposals, s) && MessagesAt(before.messages, after.messages, s)
    ensures JobsAt(before.jobs, after.jobs, s)
  {
  }
}
