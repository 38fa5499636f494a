/** Principals and grants, and the creation of a tenant. */
module PeopleOps {
  import opened Base
  import opened Tables
  import opened ScopeTree
  import ScopeOps
  import Meter

  datatype PeopleOp =
    | CreatePrincipal(name: string, digest: string, id: Id, personal: Id, now: int)
    | RevokePrincipal(principal: Id)
    | GrantRole(principal: Id, scope: Id, role: Role)
    | RevokeGrant(principal: Id, scope: Id)

  /** An active principal of the organisation. */
  predicate Member(db: Database, org: Id, p: Id) {
    p in db.principals && db.principals[p].org == org && db.principals[p].active
  }

  function ActiveAdmins(db: Database, org: Id): set<Id> {
    set p | p in db.principals && db.principals[p].org == org && db.principals[p].admin && db.principals[p].active
  }

  predicate NameOrTokenTaken(principals: map<Id, Principal>, org: Id, name: string, digest: string) {
    exists p :: p in principals && ((principals[p].org == org && principals[p].name == name) || principals[p].digest == digest)
  }

  ghost function PrincipalCreated(cfg: Config, db: Database, a: Id, op: PeopleOp): Result<Database>
    requires a in db.principals && op.CreatePrincipal?
  {
    var org := db.principals[a].org;
    :- Need(db.principals[a].admin, Denied);
    var admitted :- Meter.Admitted(cfg, db, org, |Meter.ActiveUsers(db, org)|, Meter.LimitsFor(cfg, db.accounts, org).maxUsers);
    :- ScopeOps.NewId(db, op.id);
    :- Need(!NameOrTokenTaken(db.principals, org, op.name, op.digest), Conflict);
    ScopeOps.PersonalEnsured(
      admitted.(used := db.used + {op.id},
                principals := db.principals[op.id := Principal(org, op.name, op.digest, false, true, op.now)]),
      op.id, op.personal)
  }

  function PrincipalRevoked(db: Database, a: Id, op: PeopleOp): Result<Database>
    requires a in db.principals && op.RevokePrincipal?
  {
    var org := db.principals[a].org;
    :- Need(db.principals[a].admin, Denied);
    :- Need(op.principal in db.principals && db.principals[op.principal].org == org, NotFound);
    var target := db.principals[op.principal];
    :- Need(target.active, InvalidState);
    :- Need(target.admin ==> |ActiveAdmins(db, org)| > 1, Denied);
    Ok(db.(principals := db.principals[op.principal := target.(active := false)]))
  }

  function RoleGranted(db: Database, a: Id, op: PeopleOp): Result<Database>
    requires a in db.principals && op.GrantRole?
  {
    var org := db.principals[a].org;
    :- Need(Member(db, org, op.principal), NotFound);
    var scope :- GetScope(db, org, op.scope);
    :- Need(scope.kind != Personal, Denied);
    :- RequireRole(db, a, op.scope, Admin);
    var key := (op.principal, op.scope);
    Ok(db.(grants := db.grants[key := if key in db.grants then db.grants[key].(role := op.role) else Grant(org, op.role)]))
  }

  function GrantRevoked(db: Database, a: Id, op: PeopleOp): Result<Database>
    requires a in db.principals && op.RevokeGrant?
  {
    var org := db.principals[a].org;
    var scope :- GetScope(db, org, op.scope);
    :- Need(scope.kind != Personal, Denied);
    :- RequireRole(db, a, op.scope, Admin);
    var key := (op.principal, op.scope);
    :- Need(key in db.grants && db.grants[key].org == org, NotFound);
    :- Need(db.grants[key].role == Admin && op.principal in db.principals && db.principals[op.principal].admin
            && db.principals[op.principal].active ==> |ActiveAdmins(db, org)| > 1, Denied);
    Ok(db.(grants := db.grants - {key}))
  }

  ghost function Performed(cfg: Config, db: Database, a: Id, op: PeopleOp): Result<Database>
    requires a in db.principals
  {
    match op
    case CreatePrincipal(_, _, _, _, _) => PrincipalCreated(cfg, db, a, op)
    case RevokePrincipal(_) => PrincipalRevoked(db, a, op)
    case GrantRole(_, _, _) => RoleGranted(db, a, op)
    case RevokeGrant(_, _) => GrantRevoked(db, a, op)
  }

  // ---------------------------------------------------------------- a new tenant

  datatype Tenant = Tenant(org: Id, name: string, root: Id, admin: Id, adminName: string, digest: string,
                           personal: Id, now: int)

  /** Offline: an organisation with its root scope, its administrator, and the personal scope. */
  function OrganisationCreated(db: Database, t: Tenant): Result<Database> {
    var root := Scope(t.org, None, t.name, Organisation);
    :- Need(t.name !in db.orgs.Values, Conflict);
    :- Need(t.org !in db.used && t.root !in db.used && t.admin !in db.used, Conflict);
    :- Need(t.org != t.root && t.org != t.admin && t.root != t.admin, Conflict);
    :- Need(!NameOrTokenTaken(db.principals, t.org, t.adminName, t.digest), Conflict);
    ScopeOps.PersonalEnsured(
      db.(used := db.used + {t.org, t.root, t.admin},
          orgs := db.orgs[t.org := t.name],
          scopes := db.scopes[t.root := root],
          principals := db.principals[t.admin := Principal(t.org, t.adminName, t.digest, true, true, t.now)]),
      t.admin, t.personal)
  }
}
