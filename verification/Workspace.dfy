/** The single service entry point, the offline operations, and whole runs. */
module Workspace {
  import opened Base
  import opened Tables
  import ScopeOps
  import PeopleOps
  import MemoryOps
  import JobOps
  import SlotOps

  datatype Op =
    | OnScopes(scopes: ScopeOps.ScopeOp)
    | OnPeople(people: PeopleOps.PeopleOp)
    | OnMemory(memory: MemoryOps.MemoryOp)
    | OnJobs(jobs: JobOps.JobOp)
    | OnSlots(slots: SlotOps.SlotOp)

  /** The identity a caller presents; only the database row behind it counts. */
  datatype Identity = Identity(id: Id, org: Id, name: string)

  predicate Authentic(db: Database, who: Identity) {
    && who.id in db.principals
    && db.principals[who.id].active
    && db.principals[who.id].org == who.org
    && db.principals[who.id].name == who.name
  }

  ghost function Performed(cfg: Config, db: Database, a: Id, op: Op): Result<Database>
    requires a in db.principals
  {
    match op
    case OnScopes(o) => ScopeOps.Performed(cfg, db, a, o)
    case OnPeople(o) => PeopleOps.Performed(cfg, db, a, o)
    case OnMemory(o) => MemoryOps.Performed(cfg, db, a, o)
    case OnJobs(o) => JobOps.Performed(cfg, db, a, o)
    case OnSlots(o) => SlotOps.Performed(cfg, db, a, o)
  }

  ghost function Dispatched(cfg: Config, db: Database, who: Identity, op: Op): Result<Database> {
    if Authentic(db, who) then Performed(cfg, db, who.id, op) else Err(Denied)
  }

  datatype Call =
    | Dispatch(who: Identity, op: Op)
    | NewOrganisation(tenant: PeopleOps.Tenant)
    | Recalculate(org: Id)
    | BillingAuthority(accounts: map<Id, Account>)   // any offline or webhook change of the accounts

  /** One transaction: it commits, or it leaves the state as it was. */
  ghost function Step(cfg: Config, db: Database, call: Call): Database {
    match call
    case Dispatch(who, op) =>
      var r := Dispatched(cfg, db, who, op);
      if r.Ok? then r.value else db
    case NewOrganisation(tenant) =>
      var r := PeopleOps.OrganisationCreated(db, tenant);
      if r.Ok? then r.value else db
    case Recalculate(org) => db.(usage := db.usage[org := Recount(db, org)])
    case BillingAuthority(accounts) => db.(accounts := accounts)
  }

  ghost function Run(cfg: Config, db: Database, calls: seq<Call>): Database
    decreases |calls|
  {
    if calls == [] then db else Run(cfg, Step(cfg, db, calls[0]), calls[1..])
  }

  ghost predicate Reachable(cfg: Config, db: Database) {
    exists calls :: Run(cfg, EMPTY, calls) == db
  }

  // ---------------------------------------------------------------- which tables a group may change

  lemma JobFrame(cfg: Config, db: Database, a: Id, op: JobOps.JobOp)
    requires a in db.principals && JobOps.Performed(cfg, db, a, op).Ok?
    ensures var d := JobOps.Performed(cfg, db, a, op).value;
      d == db.(used := d.used, jobs := d.jobs, usage := d.usage) && db.used <= d.used
  {
    hide JobOps.JobCreated, JobOps.JobClaimed, JobOps.JobRenewed, JobOps.JobSubmitted, JobOps.JobReviewed, JobOps.JobCancelled;
  }

  lemma MemoryFrame(cfg: Config, db: Database, a: Id, op: MemoryOps.MemoryOp)
    requires a in db.principals && MemoryOps.Performed(cfg, db, a, op).Ok?
    ensures var d := MemoryOps.Performed(cfg, db, a, op).value;
      d == db.(used := d.used, locks := d.locks, records := d.records, versions := d.versions,
               proposals := d.proposals, messages := d.messages, usage := d.usage) && db.used <= d.used
  {
    hide MemoryOps.Proposed, MemoryOps.Reviewed, MemoryOps.KeyDeleted, MemoryOps.Sent;
  }

  lemma SlotFrame(cfg: Config, db: Database, a: Id, op: SlotOps.SlotOp)
    requires a in db.principals && SlotOps.Performed(cfg, db, a, op).Ok?
    ensures var d := SlotOps.Performed(cfg, db, a, op).value;
      d == db.(used := d.used, instances := d.instances, connections := d.connections, usage := d.usage) && db.used <= d.used
  {
  }

  lemma PeopleFrame(cfg: Config, db: Database, a: Id, op: PeopleOps.PeopleOp)
    requires a in db.principals && PeopleOps.Performed(cfg, db, a, op).Ok?
    ensures var d := PeopleOps.Performed(cfg, db, a, op).value;
      d == db.(used := d.used, principals := d.principals, scopes := d.scopes, owners := d.owners,
               grants := d.grants, usage := d.usage) && db.used <= d.used
  {
  }

  lemma TenantFrame(db: Database, tenant: PeopleOps.Tenant)
    requires PeopleOps.OrganisationCreated(db, tenant).Ok?
    ensures var d := PeopleOps.OrganisationCreated(db, tenant).value;
      d == db.(used := d.used, orgs := d.orgs, principals := d.principals, scopes := d.scopes, owners := d.owners)
      && db.used <= d.used
  {
  }

  lemma ScopeFrame(cfg: Config, db: Database, a: Id, op: ScopeOps.ScopeOp)
    requires a in db.principals && ScopeOps.Performed(cfg, db, a, op).Ok?
    ensures var d := ScopeOps.Performed(cfg, db, a, op).value;
      d == db.(used := d.used, scopes := d.scopes, owners := d.owners, policies := d.policies, grants := d.grants,
               locks := d.locks, records := d.records, versions := d.versions, proposals := d.proposals,
               messages := d.messages, jobs := d.jobs, usage := d.usage) && db.used <= d.used
  {
    hide ScopeOps.Created, ScopeOps.PolicySet, ScopeOps.OwnerSet, ScopeOps.Moved, ScopeOps.Deleted, ScopeOps.Merged,
         ScopeOps.PersonalEnsured;
  }
}
