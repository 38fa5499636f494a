/** Exactly when principals, grants, tenants, instances and connections are created and revoked
    (distributedai/persistence/workspace.py, distributedai/persistence/billing.py). */
module PeopleLaws {
  import opened Base
  import opened Tables
  import opened ScopeTree
  import opened PlacementProofs
  import opened AuthorityProofs
  import opened MemoryLaws
  import RoleEffects
  import ScopeOps
  import PeopleOps
  import SlotOps
  import Slots
  import Meter

  // ---------------------------------------------------------------- principals

  predicate ActiveMember(db: Database, org: Id, p: Id) {
    p in db.principals && db.principals[p].org == org && db.principals[p].active
  }

  function Users(db: Database, org: Id): set<Id> { set p | p in db.principals && ActiveMember(db, org, p) }

  function Instances(db: Database, org: Id): set<Id> {
    set i | i in db.instances && db.instances[i].org == org && db.instances[i].active
  }

  function Connections(db: Database, org: Id): set<Id> {
    set c | c in db.connections && db.connections[c].org == org && db.connections[c].active
  }

  lemma CountedRows(db: Database, org: Id)
    ensures Users(db, org) == Meter.ActiveUsers(db, org)
    ensures Instances(db, org) == Meter.ActiveInstances(db, org)
    ensures Connections(db, org) == Meter.ActiveConnections(db, org)
  {
  }

  lemma AdmitsExactly(cfg: Config, db: Database, org: Id, count: nat, ceiling: Option<nat>)
    ensures Meter.Admitted(cfg, db, org, count, ceiling).Ok? <==> OneMoreFits(cfg, count, ceiling)
  {
    hide Recount;
  }

  /** One more fits below the ceiling of the plan in force. */
  predicate OneMoreFits(cfg: Config, count: nat, ceiling: Option<nat>) {
    cfg.metered && ceiling.Some? ==> count + 1 <= ceiling.value
  }

  /** Nobody in the organisation has the name, and nobody at all the credential. */
  ghost predicate NameFree(principals: map<Id, Principal>, org: Id, name: string, digest: string) {
    forall p :: p in principals ==> !(principals[p].org == org && principals[p].name == name) && principals[p].digest != digest
  }

  /** Exactly an administrator creates a principal, within the plan, under a name that is free in the
      organisation, with a credential that nobody has. */
  lemma CreatesPrincipalExactly(cfg: Config, db: Database, a: Id, op: PeopleOps.PeopleOp)
    requires Placed(db) && a in db.principals && op.CreatePrincipal?
    ensures var org := db.principals[a].org;
      PeopleOps.PrincipalCreated(cfg, db, a, op).Ok? <==>
        && db.principals[a].admin
        && OneMoreFits(cfg, |Users(db, org)|,
                       cfg.plans[Meter.PlanFor(cfg, db.accounts, org)].maxUsers)
        && op.id !in db.used && op.personal !in db.used && op.personal != op.id
        && NameFree(db.principals, org, op.name, op.digest)
  {
    hide PeopleOps.NameOrTokenTaken, NameFree, HasAccessPlaced, PayloadPlaced, ScopeOps.HasPersonal, Meter.PlanFor, Meter.Admitted,
         OneMoreFits, Users, Meter.ActiveUsers;
    var org := db.principals[a].org;
    var ceiling := Meter.LimitsFor(cfg, db.accounts, org).maxUsers;
    CountedRows(db, org);
    AdmitsExactly(cfg, db, org, |Users(db, org)|, ceiling);
    FreeName(db.principals, org, op.name, op.digest);
    var admitted := Meter.Admitted(cfg, db, org, |Users(db, org)|, ceiling);
    if op.id !in db.used && admitted.Ok? { NewPersonal(db, a, op, admitted.value); }
  }

  /** Whoever is new gets a personal scope exactly when its identifier is fresh. */
  lemma NewPersonal(db: Database, a: Id, op: PeopleOps.PeopleOp, admitted: Database)
    requires Placed(db) && a in db.principals && op.CreatePrincipal? && op.id !in db.used && admitted == db.(usage := admitted.usage)
    ensures var row := Principal(db.principals[a].org, op.name, op.digest, false, true, op.now);
      var member := admitted.(used := db.used + {op.id}, principals := db.principals[op.id := row]);
      ScopeOps.PersonalEnsured(member, op.id, op.personal).Ok? <==> op.personal !in db.used && op.personal != op.id
  {
    hide HasAccessPlaced, PayloadPlaced, ScopeOps.HasPersonal;
    var row := Principal(db.principals[a].org, op.name, op.digest, false, true, op.now);
    RoleEffects.NoPersonalYet(db, admitted.(used := db.used + {op.id}, principals := db.principals[op.id := row]), op.id);
  }

  /** The new principal and its personal scope are all there is new. */
  lemma CreatedPrincipal(cfg: Config, db: Database, a: Id, op: PeopleOps.PeopleOp)
    requires Placed(db) && a in db.principals && op.CreatePrincipal? && PeopleOps.PrincipalCreated(cfg, db, a, op).Ok?
    ensures var d := PeopleOps.PrincipalCreated(cfg, db, a, op).value; var org := db.principals[a].org;
      && d == db.(used := d.used, usage := d.usage, principals := d.principals, scopes := d.scopes, owners := d.owners)
      && d.principals == db.principals[op.id := Principal(org, op.name, op.digest, false, true, op.now)]
      && d.scopes == db.scopes[op.personal := Scope(org, None, "Personal memory", Personal)]
      && d.owners == db.owners[op.personal := Owner(org, op.id)]
  {
    hide PeopleOps.PrincipalCreated, Placed, ScopeOps.HasPersonal;
    RoleEffects.MemberCreated(cfg, db, a, op);
  }

  lemma FreeName(principals: map<Id, Principal>, org: Id, name: string, digest: string)
    ensures PeopleOps.NameOrTokenTaken(principals, org, name, digest) <==> !NameFree(principals, org, name, digest)
  {
  }

  /** Some other active administrator of the organisation. */
  ghost predicate OtherAdmin(db: Database, org: Id, p: Id) {
    exists q :: q != p && ActiveMember(db, org, q) && db.principals[q].admin
  }

  lemma AdminsLeft(db: Database, org: Id, p: Id)
    requires ActiveMember(db, org, p) && db.principals[p].admin
    ensures |PeopleOps.ActiveAdmins(db, org)| > 1 <==> OtherAdmin(db, org, p)
  {
    var admins := PeopleOps.ActiveAdmins(db, org);
    assert p in admins;
    if |admins| > 1 {
      assert |admins - {p}| == |admins| - 1;
      var q :| q in admins - {p};
      assert ActiveMember(db, org, q);
    }
    if OtherAdmin(db, org, p) {
      var q :| q != p && ActiveMember(db, org, q) && db.principals[q].admin;
      assert q in admins && {p, q} <= admins && |{p, q}| == 2;
      Fits({p, q}, admins);
    }
  }

  lemma {:induction false} Fits(s: set<Id>, t: set<Id>)
    requires s <= t
    ensures |s| <= |t|
  {
    assert t == s + (t - s);
  }

  /** Exactly an administrator revokes an active principal, the last active administrator excepted; nothing but
      its flag changes. */
  lemma RevokesPrincipalExactly(db: Database, a: Id, op: PeopleOps.PeopleOp)
    requires a in db.principals && op.RevokePrincipal?
    ensures var org := db.principals[a].org;
      PeopleOps.PrincipalRevoked(db, a, op).Ok? <==>
        && db.principals[a].admin && ActiveMember(db, org, op.principal)
        && (db.principals[op.principal].admin ==> OtherAdmin(db, org, op.principal))
    ensures PeopleOps.PrincipalRevoked(db, a, op).Ok? ==>
      PeopleOps.PrincipalRevoked(db, a, op).value ==
        db.(principals := db.principals[op.principal := db.principals[op.principal].(active := false)])
  {
    hide PeopleOps.ActiveAdmins, OtherAdmin;
    var org := db.principals[a].org;
    if ActiveMember(db, org, op.principal) && db.principals[op.principal].admin { AdminsLeft(db, org, op.principal); }
  }

  // ---------------------------------------------------------------- grants

  /** Exactly an admin of a scope that is not personal grants a role on it, to an active member. */
  lemma GrantsExactly(db: Database, a: Id, op: PeopleOps.PeopleOp)
    requires Forest(db.scopes) && Placed(db) && a in db.principals && op.GrantRole?
    ensures PeopleOps.RoleGranted(db, a, op).Ok? <==>
      ActiveMember(db, db.principals[a].org, op.principal) && Holds(db, a, op.scope, Admin) && db.scopes[op.scope].kind != Personal
    ensures PeopleOps.RoleGranted(db, a, op).Ok? ==>
      PeopleOps.RoleGranted(db, a, op).value ==
        db.(grants := db.grants[(op.principal, op.scope) := Grant(db.principals[a].org, op.role)])
  {
    hide Forest, RequireRole, Holds, PayloadPlaced;
    HoldsScope(db, a, op.scope, Admin);
    var key := (op.principal, op.scope);
    if key in db.grants { assert Lives(db.scopes, key.1, db.grants[key].org); }
  }

  /** Exactly an admin of a scope that is not personal takes a grant back, but not the admin grant of the only
      active administrator. */
  lemma RevokesGrantExactly(db: Database, a: Id, op: PeopleOps.PeopleOp)
    requires Forest(db.scopes) && Placed(db) && a in db.principals && op.RevokeGrant?
    ensures var key := (op.principal, op.scope); var org := db.principals[a].org;
      PeopleOps.GrantRevoked(db, a, op).Ok? <==>
        && Holds(db, a, op.scope, Admin) && db.scopes[op.scope].kind != Personal && key in db.grants
        && (db.grants[key].role == Admin && ActiveMember(db, org, op.principal) && db.principals[op.principal].admin ==>
              OtherAdmin(db, org, op.principal))
    ensures PeopleOps.GrantRevoked(db, a, op).Ok? ==>
      PeopleOps.GrantRevoked(db, a, op).value == db.(grants := db.grants - {(op.principal, op.scope)})
  {
    hide Forest, RequireRole, Holds, PayloadPlaced, OtherAdmin, PeopleOps.ActiveAdmins;
    HoldsScope(db, a, op.scope, Admin);
    var key := (op.principal, op.scope);
    var org := db.principals[a].org;
    if key in db.grants && op.scope in db.scopes && db.scopes[op.scope].org == org {
      assert Lives(db.scopes, key.1, db.grants[key].org) && Belongs(db.principals, key.0, db.grants[key].org);
      if ActiveMember(db, org, op.principal) && db.principals[op.principal].admin { AdminsLeft(db, org, op.principal); }
    }
  }

  // ---------------------------------------------------------------- tenants

  /** A tenant is created exactly under a free name with fresh identifiers and a free credential. */
  lemma CreatesTenantExactly(db: Database, t: PeopleOps.Tenant)
    requires Placed(db)
    ensures PeopleOps.OrganisationCreated(db, t).Ok? <==>
      && (forall o :: o in db.orgs ==> db.orgs[o] != t.name)
      && {t.org, t.root, t.admin, t.personal} !! db.used
      && t.org != t.root && t.org != t.admin && t.root != t.admin && t.personal !in {t.org, t.root, t.admin}
      && NameFree(db.principals, t.org, t.adminName, t.digest)
  {
    hide PeopleOps.NameOrTokenTaken, NameFree, HasAccessPlaced, PayloadPlaced, ScopeOps.HasPersonal, ScopeOps.PersonalEnsured;
    FreeName(db.principals, t.org, t.adminName, t.digest);
    assert t.name in db.orgs.Values <==> exists o :: o in db.orgs && db.orgs[o] == t.name;
    if t.admin !in db.used { AdminsPersonal(db, t); }
  }

  lemma AdminsPersonal(db: Database, t: PeopleOps.Tenant)
    requires Placed(db) && t.admin !in db.used
    ensures ScopeOps.PersonalEnsured(RoleEffects.RootAdded(db, t), t.admin, t.personal) ==
      if t.personal in db.used + {t.org, t.root, t.admin} then Err(Conflict)
      else Ok(ScopeOps.PersonalAdded(RoleEffects.RootAdded(db, t), t.admin, t.personal))
  {
    hide HasAccessPlaced, PayloadPlaced, ScopeOps.HasPersonal;
    RoleEffects.NoPersonalYet(db, RoleEffects.RootAdded(db, t), t.admin);
  }

  /** The organisation, its administrator and its two scopes are all there is new. */
  lemma CreatedTenant(db: Database, t: PeopleOps.Tenant)
    requires Placed(db) && PeopleOps.OrganisationCreated(db, t).Ok?
    ensures var d := PeopleOps.OrganisationCreated(db, t).value;
      && d == db.(used := d.used, orgs := d.orgs, principals := d.principals, scopes := d.scopes, owners := d.owners)
      && d.orgs == db.orgs[t.org := t.name]
      && d.principals == db.principals[t.admin := Principal(t.org, t.adminName, t.digest, true, true, t.now)]
      && d.scopes == db.scopes[t.root := Scope(t.org, None, t.name, Organisation)]
                              [t.personal := Scope(t.org, None, "Personal memory", Personal)]
      && d.owners == db.owners[t.personal := Owner(t.org, t.admin)]
  {
    hide PeopleOps.NameOrTokenTaken, Placed, ScopeOps.PersonalEnsured;
    AdminsPersonal(db, t);
  }

  // ---------------------------------------------------------------- instances and connections

  /** Exactly an administrator creates an instance, within the plan, under a name that is free in the organisation. */
  lemma CreatesInstanceExactly(cfg: Config, db: Database, a: Id, op: SlotOps.SlotOp)
    requires a in db.principals && op.CreateInstance?
    ensures var org := db.principals[a].org;
      SlotOps.InstanceCreated(cfg, db, a, op).Ok? <==>
        && db.principals[a].admin
        && OneMoreFits(cfg, |Instances(db, org)|,
                       cfg.plans[Meter.PlanFor(cfg, db.accounts, org)].maxInstances)
        && (forall i :: i in db.instances && db.instances[i].org == org ==> db.instances[i].name != op.name)
        && op.id !in db.used
    ensures SlotOps.InstanceCreated(cfg, db, a, op).Ok? ==>
      var d := SlotOps.InstanceCreated(cfg, db, a, op).value;
      d == db.(used := db.used + {op.id}, usage := d.usage,
               instances := db.instances[op.id := Instance(db.principals[a].org, op.name, true, op.now)])
  {
    hide Meter.PlanFor, Meter.Admitted, OneMoreFits, Instances, Meter.ActiveInstances;
    var org := db.principals[a].org;
    CountedRows(db, org);
    AdmitsExactly(cfg, db, org, |Instances(db, org)|, Meter.LimitsFor(cfg, db.accounts, org).maxInstances);
  }

  /** No connection has the credential. */
  ghost predicate CredentialFree(db: Database, digest: string) {
    forall c :: c in db.connections ==> db.connections[c].digest != digest
  }

  lemma FreeCredential(db: Database, digest: string)
    ensures (exists c :: c in db.connections && db.connections[c].digest == digest) <==> !CredentialFree(db, digest)
  {
  }

  /** Exactly for itself, or as an administrator for an active member, a principal issues a connection on an active
      instance of its organisation, within the plan, with a credential that no connection has. */
  lemma IssuesExactly(cfg: Config, db: Database, a: Id, op: SlotOps.SlotOp)
    requires a in db.principals && op.Issue?
    ensures var org := db.principals[a].org;
      SlotOps.Issued(cfg, db, a, op).Ok? <==>
        && (op.owner == a || db.principals[a].admin) && ActiveMember(db, org, op.owner)
        && op.instance in db.instances && db.instances[op.instance].org == org && db.instances[op.instance].active
        && OneMoreFits(cfg, |Connections(db, org)|, cfg.plans[Meter.PlanFor(cfg, db.accounts, org)].maxConnections)
        && op.id !in db.used && CredentialFree(db, op.digest)
    ensures SlotOps.Issued(cfg, db, a, op).Ok? ==>
      var d := SlotOps.Issued(cfg, db, a, op).value;
      d == db.(used := db.used + {op.id}, usage := d.usage,
               connections := db.connections[op.id := Connection(db.principals[a].org, op.owner, op.instance, op.digest, true, op.now)])
  {
    hide Meter.PlanFor, Meter.Admitted, OneMoreFits, Connections, Meter.ActiveConnections, CredentialFree;
    var org := db.principals[a].org;
    CountedRows(db, org);
    AdmitsExactly(cfg, db, org, |Connections(db, org)|, Meter.LimitsFor(cfg, db.accounts, org).maxConnections);
    FreeCredential(db, op.digest);
  }

  /** Exactly its owner or an administrator revokes an active connection; nothing but its flag changes. */
  lemma RevokesConnectionExactly(db: Database, a: Id, op: SlotOps.SlotOp)
    requires a in db.principals && op.Revoke?
    ensures SlotOps.Revoked(db, a, op).Ok? <==>
      && op.connection in db.connections && db.connections[op.connection].org == db.principals[a].org
      && (db.connections[op.connection].owner == a || db.principals[a].admin) && db.connections[op.connection].active
    ensures SlotOps.Revoked(db, a, op).Ok? ==>
      SlotOps.Revoked(db, a, op).value ==
        db.(connections := db.connections[op.connection := db.connections[op.connection].(active := false)])
  {
  }

  /** A connection authenticates only while it, its owner and its instance are active, and acts within one
      organisation. */
  lemma OnlyActiveAuthenticates(cfg: Config, db: Database, c: Id)
    requires Slots.Authenticates(cfg, db, c)
    ensures c in db.connections && db.connections[c].active
    ensures ActiveMember(db, db.connections[c].org, db.connections[c].owner)
    ensures db.connections[c].instance in db.instances && db.instances[db.connections[c].instance].active
  {
    hide Slots.Eligible, Meter.LimitsFor;
  }
}
