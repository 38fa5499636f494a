/** Principals, grants and new tenants, step by step on a session. */
module PeopleStore {
  import opened Base
  import opened Tables
  import opened ScopeTree
  import opened Sessions
  import opened PeopleOps
  import ScopeOps
  import BillingEngines
  import ScopeStore
  import Meter

  method InsertPrincipal(sess: Session, id: Id, row: Principal)
    modifies sess`used, sess`principals
    ensures sess.Tables() == old(sess.Tables()).(used := old(sess.used) + {id}, principals := old(sess.principals)[id := row])
  {
    sess.used, sess.principals := sess.used + {id}, sess.principals[id := row];
  }

  method PrincipalCreate(cfg: Config, sess: Session, a: Id, op: PeopleOp) returns (r: Result<()>)
    requires a in sess.principals && op.CreatePrincipal?
    modifies sess
    ensures Answers(r, PrincipalCreated(cfg, old(sess.Tables()), a, op), sess.Tables())
  {
    hide Meter.Admitted, Meter.LimitsFor, Meter.ActiveUsers, NameOrTokenTaken, ScopeOps.PersonalEnsured;
    var org := sess.principals[a].org;
    :- Need(sess.principals[a].admin, Denied);
    var db := sess.Tables();
    var _ :- BillingEngines.CheckQuota(cfg, sess, org, |Meter.ActiveUsers(db, org)|, Meter.LimitsFor(cfg, db.accounts, org).maxUsers);
    :- Need(op.id !in sess.used && !NameOrTokenTaken(sess.principals, org, op.name, op.digest), Conflict);
    InsertPrincipal(sess, op.id, Principal(org, op.name, op.digest, false, true, op.now));
    r := ScopeStore.EnsurePersonal(sess, op.id, op.personal);
  }

  method PrincipalRevoke(sess: Session, a: Id, op: PeopleOp) returns (r: Result<()>)
    requires a in sess.principals && op.RevokePrincipal?
    modifies sess`principals
    ensures Answers(r, PrincipalRevoked(old(sess.Tables()), a, op), sess.Tables())
  {
    var org := sess.principals[a].org;
    :- Need(sess.principals[a].admin, Denied);
    :- Need(op.principal in sess.principals && sess.principals[op.principal].org == org, NotFound);
    var target := sess.principals[op.principal];
    :- Need(target.active, InvalidState);
    if target.admin {
      var admins := set p | p in sess.principals && sess.principals[p].org == org && sess.principals[p].admin && sess.principals[p].active;
      assert admins == ActiveAdmins(sess.Tables(), org);
      :- Need(|admins| > 1, Denied);
    }
    sess.principals := sess.principals[op.principal := target.(active := false)];
    return Ok(());
  }

  method GrantSet(sess: Session, a: Id, op: PeopleOp) returns (r: Result<()>)
    requires a in sess.principals && op.GrantRole?
    modifies sess`grants
    ensures Answers(r, RoleGranted(old(sess.Tables()), a, op), sess.Tables())
  {
    hide RequireRole;
    var org := sess.principals[a].org;
    :- Need(op.principal in sess.principals && sess.principals[op.principal].org == org && sess.principals[op.principal].active,
            NotFound);
    var scope :- FindScope(sess, org, op.scope);
    :- Need(scope.kind != Personal, Denied);
    :- Require(sess, a, op.scope, Admin);
    var key := (op.principal, op.scope);
    if key in sess.grants {
      sess.grants := sess.grants[key := sess.grants[key].(role := op.role)];
    } else {
      sess.grants := sess.grants[key := Grant(org, op.role)];
    }
    return Ok(());
  }

  method GrantRevoke(sess: Session, a: Id, op: PeopleOp) returns (r: Result<()>)
    requires a in sess.principals && op.RevokeGrant?
    modifies sess`grants
    ensures Answers(r, GrantRevoked(old(sess.Tables()), a, op), sess.Tables())
  {
    hide RequireRole;
    var org := sess.principals[a].org;
    var scope :- FindScope(sess, org, op.scope);
    :- Need(scope.kind != Personal, Denied);
    :- Require(sess, a, op.scope, Admin);
    var key := (op.principal, op.scope);
    :- Need(key in sess.grants && sess.grants[key].org == org, NotFound);
    if sess.grants[key].role == Admin && op.principal in sess.principals && sess.principals[op.principal].admin
       && sess.principals[op.principal].active {
      var admins := set p | p in sess.principals && sess.principals[p].org == org && sess.principals[p].admin && sess.principals[p].active;
      assert admins == ActiveAdmins(sess.Tables(), org);
      :- Need(|admins| > 1, Denied);
    }
    sess.grants := sess.grants - {key};
    return Ok(());
  }

  method Perform(cfg: Config, sess: Session, a: Id, op: PeopleOp) returns (r: Result<()>)
    requires a in sess.principals
    modifies sess
    ensures Answers(r, Performed(cfg, old(sess.Tables()), a, op), sess.Tables())
  {
    hide PrincipalCreated, PrincipalRevoked, RoleGranted, GrantRevoked;
    match op
    case CreatePrincipal(_, _, _, _, _) => r := PrincipalCreate(cfg, sess, a, op);
    case RevokePrincipal(_) => r := PrincipalRevoke(sess, a, op);
    case GrantRole(_, _, _) => r := GrantSet(sess, a, op);
    case RevokeGrant(_, _) => r := GrantRevoke(sess, a, op);
  }

  method CreateOrganisation(sess: Session, t: Tenant) returns (r: Result<()>)
    modifies sess
    ensures Answers(r, OrganisationCreated(old(sess.Tables()), t), sess.Tables())
  {
    hide NameOrTokenTaken, ScopeOps.PersonalEnsured;
    :- Need(t.name !in sess.orgs.Values, Conflict);
    :- Need(t.org !in sess.used && t.root !in sess.used && t.admin !in sess.used, Conflict);
    :- Need(t.org != t.root && t.org != t.admin && t.root != t.admin, Conflict);
    :- Need(!NameOrTokenTaken(sess.principals, t.org, t.adminName, t.digest), Conflict);
    InsertTenant(sess, t);
    r := ScopeStore.EnsurePersonal(sess, t.admin, t.personal);
  }

  method InsertTenant(sess: Session, t: Tenant)
    modifies sess`used, sess`orgs, sess`scopes, sess`principals
    ensures var db := old(sess.Tables());
      sess.Tables() == db.(used := db.used + {t.org, t.root, t.admin},
                           orgs := db.orgs[t.org := t.name],
                           scopes := db.scopes[t.root := Scope(t.org, None, t.name, Organisation)],
                           principals := db.principals[t.admin := Principal(t.org, t.adminName, t.digest, true, true, t.now)])
  {
    sess.used := sess.used + {t.org, t.root, t.admin};
    InsertRoot(sess, t);
    sess.principals := sess.principals[t.admin := Principal(t.org, t.adminName, t.digest, true, true, t.now)];
  }

  method InsertRoot(sess: Session, t: Tenant)
    modifies sess`orgs, sess`scopes
    ensures sess.Tables() == old(sess.Tables()).(orgs := old(sess.orgs)[t.org := t.name],
                                                 scopes := old(sess.scopes)[t.root := Scope(t.org, None, t.name, Organisation)])
  {
    sess.orgs := sess.orgs[t.org := t.name];
    sess.scopes := sess.scopes[t.root := Scope(t.org, None, t.name, Organisation)];
  }
}
