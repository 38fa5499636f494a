/** Plan limits, the storage counter, and the quota checks (distributedai/persistence/billing.py). */
module Meter {
  import opened Base
  import opened Tables

  /** `limits_for`: anything but a settled active account falls back to the default plan. */
  function PlanFor(cfg: Config, accounts: map<Id, Account>, org: Id): (plan: string)
    ensures plan in cfg.plans
  {
    if org in accounts && !accounts[org].reconcile && accounts[org].status == Active && accounts[org].plan in cfg.plans
    then accounts[org].plan
    else cfg.defaultPlan
  }

  function LimitsFor(cfg: Config, accounts: map<Id, Account>, org: Id): PlanLimits {
    cfg.plans[PlanFor(cfg, accounts, org)]
  }

  /** The usage row is created on first use from a recount. */
  ghost function UsageLocked(db: Database, org: Id): (locked: Database)
    ensures locked == db.(usage := locked.usage)
  {
    if org in db.usage then db else db.(usage := db.usage[org := Recount(db, org)])
  }

  /** Reserve `n` bytes, or refuse because they would pass the cap of the plan. */
  ghost function Charged(cfg: Config, db: Database, org: Id, n: nat): (r: Result<Database>)
    ensures r.Ok? ==> r.value == db.(usage := r.value.usage)
  {
    if !cfg.metered || n == 0 then Ok(db)
    else
      var locked := UsageLocked(db, org);
      var cap := LimitsFor(cfg, db.accounts, org).maxBytes;
      if cap.Some? && locked.usage[org] + n > cap.value then Err(QuotaExceeded)
      else Ok(locked.(usage := locked.usage[org := locked.usage[org] + n]))
  }

  /** The usage row after rows were deleted. */
  ghost function Recounted(cfg: Config, db: Database, org: Id): (counted: Database)
    ensures counted == db.(usage := counted.usage)
  {
    if cfg.metered then db.(usage := db.usage[org := Recount(db, org)]) else db
  }

  function ActiveUsers(db: Database, org: Id): set<Id> {
    set p | p in db.principals && db.principals[p].org == org && db.principals[p].active
  }

  function ActiveInstances(db: Database, org: Id): set<Id> {
    set i | i in db.instances && db.instances[i].org == org && db.instances[i].active
  }

  function ActiveConnections(db: Database, org: Id): set<Id> {
    set c | c in db.connections && db.connections[c].org == org && db.connections[c].active
  }

  predicate Below(count: nat, ceiling: Option<nat>) {
    ceiling.None? || count < ceiling.value
  }

  /** A count quota: lock the usage row, then admit only below the ceiling. */
  ghost function Admitted(cfg: Config, db: Database, org: Id, count: nat, ceiling: Option<nat>): (r: Result<Database>)
    ensures r.Ok? ==> r.value == db.(usage := r.value.usage)
  {
    if !cfg.metered then Ok(db)
    else if Below(count, ceiling) then Ok(UsageLocked(db, org))
    else Err(QuotaExceeded)
  }
}
