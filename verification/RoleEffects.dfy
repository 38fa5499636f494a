/** Who has which role, and who is denied what, after each change of scopes, owners, policies, grants and
    principals (distributedai/persistence/workspace.py). */
module RoleEffects {
  import opened Base
  import opened Tables
  import opened ScopeTree
  import opened PlacementProofs
  import opened ForestProofs
  import opened DenialProofs
  import ScopeOps
  import PeopleOps
  import Meter

  // ---------------------------------------------------------------- what a role depends on

  /** Every principal of `before` has on every scope of `before` the role that it had. */
  ghost predicate SameRoles(before: Database, after: Database) {
    && before.principals.Keys <= after.principals.Keys && before.scopes.Keys <= after.scopes.Keys
    && forall p, s | p in before.principals && s in before.scopes :: RoleFor(after, p, s) == RoleFor(before, p, s)
  }

  /** The principal has some role on the scope. */
  predicate HasRole(db: Database, p: Id, s: Id)
    requires p in db.principals && s in db.scopes
  {
    var role := RoleFor(db, p, s);
    role.Ok? && role.value.Some?
  }

  /** The principal has at least this role on the scope. */
  predicate Reaches(db: Database, p: Id, s: Id, minimum: Role)
    requires p in db.principals && s in db.scopes
  {
    RequireRole(db, p, s, minimum).Pass?
  }

  /** The scope hangs below `top`, or is it, and the walk up from it ends. */
  predicate Under(scopes: Scopes, s: Id, top: Id)
    requires s in scopes
  {
    Chain(scopes, s).Ok? && top in Chain(scopes, s).value
  }

  lemma {:induction false} ChainGrew(before: Scopes, after: Scopes, org: Id, s: Id, steps: nat)
    requires ScopesGrew(before, after) && ParentsHome(before) && s in before
    ensures ChainFrom(after, org, s, steps) == ChainFrom(before, org, s, steps)
    decreases steps
  {
    if steps > 0 && ParentIn(before, org, s).Some? { ChainGrew(before, after, org, before[s].parent.value, steps - 1); }
  }

  lemma {:induction false} ChainHome(scopes: Scopes, org: Id, s: Id, steps: nat)
    requires s in scopes && scopes[s].org == org && ChainFrom(scopes, org, s, steps).Ok?
    ensures forall t :: t in ChainFrom(scopes, org, s, steps).value ==> t in scopes && scopes[t].org == org
    decreases steps
  {
    if ParentIn(scopes, org, s).Some? { ChainHome(scopes, org, scopes[s].parent.value, steps - 1); }
  }

  /** A walk that ends within some rounds ends the same way within more. */
  lemma {:induction false} ChainMore(scopes: Scopes, org: Id, s: Id, steps: nat, more: nat)
    requires s in scopes && ChainFrom(scopes, org, s, steps).Ok? && steps <= more
    ensures ChainFrom(scopes, org, s, more) == ChainFrom(scopes, org, s, steps)
    decreases steps
  {
    if ParentIn(scopes, org, s).Some? { ChainMore(scopes, org, scopes[s].parent.value, steps - 1, more - 1); }
  }

  lemma ForestParents(scopes: Scopes)
    requires Forest(scopes)
    ensures ParentsHome(scopes)
  {
  }

  /** New scopes and new principals change no role of the old ones on the old ones. */
  lemma GrownRoles(before: Database, after: Database)
    requires ParentsHome(before.scopes) && ScopesGrew(before.scopes, after.scopes) && after.grants == before.grants
    requires forall p :: p in before.principals ==> p in after.principals && after.principals[p] == before.principals[p]
    requires forall s, p :: s in before.scopes ==> (Owns(after, p, s) <==> Owns(before, p, s))
    ensures SameRoles(before, after)
  {
    hide Owns, GrantedRole, Chain, ParentsHome;
    forall p, s | p in before.principals && s in before.scopes ensures RoleFor(after, p, s) == RoleFor(before, p, s) {
      SameChain(before.scopes, after.scopes, s);
    }
  }

  lemma SameChain(before: Scopes, after: Scopes, s: Id)
    requires ParentsHome(before) && ScopesGrew(before, after) && s in before
    ensures Chain(after, s) == Chain(before, s)
  {
    ChainGrew(before, after, before[s].org, s, MAX_WALK);
  }

  // ---------------------------------------------------------------- a new scope

  lemma CreatedTables(db: Database, a: Id, op: ScopeOps.ScopeOp)
    requires Placed(db) && a in db.principals && op.CreateScope? && ScopeOps.Created(db, a, op).Ok?
    ensures op.parent in db.scopes && op.id !in db.scopes && op.id !in db.owners && op.id != op.parent
    ensures db.scopes[op.parent].org == db.principals[a].org && db.scopes[op.parent].kind != Personal
    ensures ScopeOps.Created(db, a, op).value ==
      ScopeOps.ScopeAdded(db, op.id, Scope(db.principals[a].org, Some(op.parent), op.name, op.kind), a)
    ensures op.kind != Personal
    ensures forall p :: (op.id, p) !in db.policies && (p, op.id) !in db.grants
  {
    hide RequireRole, ScopeOps.NameTaken, PayloadPlaced, HasAccessPlaced;
    Unreferenced(db, op.id);
  }

  lemma Unreferenced(db: Database, id: Id)
    requires HasAccessPlaced(db) && id !in db.scopes
    ensures id !in db.owners && forall p :: (id, p) !in db.policies && (p, id) !in db.grants
  {
    assert forall k :: k in db.policies ==> Lives(db.scopes, k.0, db.policies[k].org);
    assert forall k :: k in db.grants ==> Lives(db.scopes, k.1, db.grants[k].org);
  }

  /** A new scope belongs to its creator and gives nobody a role on an old scope. */
  lemma CreatedRoles(db: Database, a: Id, op: ScopeOps.ScopeOp)
    requires Forest(db.scopes) && Placed(db) && a in db.principals && op.CreateScope? && ScopeOps.Created(db, a, op).Ok?
    ensures var d := ScopeOps.Created(db, a, op).value; RoleFor(d, a, op.id) == Ok(Some(Admin)) && SameRoles(db, d)
  {
    hide Forest, Placed, ScopeOps.Created, Chain, GrantedRole, ParentsHome;
    CreatedTables(db, a, op);
    ForestParents(db.scopes);
    GrownRoles(db, ScopeOps.Created(db, a, op).value);
  }

  /** A scope is walked by its parent's chain. */
  lemma ChildChain(scopes: Scopes, id: Id)
    requires id in scopes && scopes[id].parent.Some? && ParentsHome(scopes) && Chain(scopes, id).Ok?
    ensures var parent := scopes[id].parent.value;
      parent in scopes && Chain(scopes, parent).Ok? && Chain(scopes, id).value == [id] + Chain(scopes, parent).value
  {
    ChainMore(scopes, scopes[id].org, scopes[id].parent.value, MAX_WALK - 1, MAX_WALK);
  }

  lemma UngrantedHere(grants: map<(Id, Id), Grant>, p: Id, org: Id, id: Id, chain: seq<Id>)
    requires (p, id) !in grants
    ensures GrantedRole(grants, p, org, [id] + chain) == GrantedRole(grants, p, org, chain)
  {
    forall role: Role ensures Granted(grants, p, org, [id] + chain, role) <==> Granted(grants, p, org, chain, role) {
      if Granted(grants, p, org, chain, role) {
        var s :| s in chain && (p, s) in grants && grants[(p, s)] == Grant(org, role);
        assert s in [id] + chain;
      }
    }
  }

  /** Whoever neither created the new scope nor owns its parent has on it the role it has on the parent. */
  lemma CreatedInherits(db: Database, a: Id, op: ScopeOps.ScopeOp, p: Id)
    requires Forest(db.scopes) && Placed(db) && a in db.principals && op.CreateScope? && ScopeOps.Created(db, a, op).Ok?
    requires p in db.principals && p != a && !Owns(db, p, op.parent)
    requires Chain(ScopeOps.Created(db, a, op).value.scopes, op.id).Ok?
    ensures RoleFor(ScopeOps.Created(db, a, op).value, p, op.id) == RoleFor(db, p, op.parent)
  {
    hide Placed, ScopeOps.Created, Chain, GrantedRole, Rooted;
    CreatedTables(db, a, op);
    var d := ScopeOps.Created(db, a, op).value;
    ForestParents(db.scopes);
    ChildChain(d.scopes, op.id);
    SameChain(db.scopes, d.scopes, op.parent);
    UngrantedHere(db.grants, p, db.principals[p].org, op.id, Chain(db.scopes, op.parent).value);
  }

  /** A new scope denies exactly what its parent denies, and changes no denial of another. */
  lemma CreatedDenies(db: Database, a: Id, op: ScopeOps.ScopeOp, p: Id, right: Right)
    requires Forest(db.scopes) && Placed(db) && a in db.principals && op.CreateScope? && ScopeOps.Created(db, a, op).Ok?
    ensures var d := ScopeOps.Created(db, a, op).value;
      && (Denies(d, op.id, p, right) <==> Denies(db, op.parent, p, right))
      && forall s :: s in db.scopes ==> (Denies(d, s, p, right) <==> Denies(db, s, p, right))
  {
    hide Placed, ScopeOps.Created, Denies;
    CreatedTables(db, a, op);
    var d := ScopeOps.Created(db, a, op).value;
    forall s | s in db.scopes ensures Denies(d, s, p, right) <==> Denies(db, s, p, right) { SameWalks(db, d, s, p, right); }
    if Denies(d, op.parent, p, right) { DeniedAbove(d, op.id, p, right); }
    if Denies(d, op.id, p, right) { DeniedByParent(d, op.id, p, right); }
  }

  lemma SameWalks(before: Database, after: Database, s: Id, p: Id, right: Right)
    requires Forest(before.scopes) && s in before.scopes && ScopesGrew(before.scopes, after.scopes) && after.policies == before.policies
    ensures Denies(after, s, p, right) <==> Denies(before, s, p, right)
  {
    if Denies(before, s, p, right) { GrownDenies(before, after, s, p, right); }
    if Denies(after, s, p, right) {
      var k: nat :| DeniedAt(after, s, p, right, k);
      UpKept(before.scopes, after.scopes, s, k);
      assert DeniedAt(before, s, p, right, k);
    }
  }

  /** Without a policy of its own a scope denies nothing but what its parent denies. */
  lemma DeniedByParent(db: Database, s: Id, p: Id, right: Right)
    requires s in db.scopes && db.scopes[s].parent.Some? && (s, p) !in db.policies && Denies(db, s, p, right)
    ensures Denies(db, db.scopes[s].parent.value, p, right)
  {
    var k: nat :| DeniedAt(db, s, p, right, k);
    assert k > 0;
    assert DeniedAt(db, db.scopes[s].parent.value, p, right, k - 1);
  }

  // ---------------------------------------------------------------- policies

  /** A withheld right is denied to its principal on the scope and on everything below it. */
  lemma PolicyWithholds(db: Database, a: Id, op: ScopeOps.ScopeOp, s: Id, right: Right)
    requires Forest(db.scopes) && Placed(db)
    requires a in db.principals && op.SetPolicy? && ScopeOps.PolicySet(db, a, op).Ok?
    requires s in db.scopes && Ancestor(db.scopes, s, op.scope) && !Allows(Policy("", op.canExport, op.canDelete), right)
    ensures var d := ScopeOps.PolicySet(db, a, op).value;
      op.principal in d.principals && Denies(d, s, op.principal, right) && Permitted(d, op.principal, s, right) != Ok(true)
  {
    hide Forest, HasAccessPlaced, PayloadPlaced, Permitted;
    var d := ScopeOps.PolicySet(db, a, op).value;
    var k: nat :| Up(db.scopes, s, k) == Some(op.scope);
    assert DeniedAt(d, s, op.principal, right, k);
    PolicySetPlaced(db, a, op);
    PlacedPolicy(db, d);
    PermittedExactly(d, s, op.principal, right);
  }

  lemma PlacedPolicy(before: Database, after: Database)
    requires Placed(before) && after == before.(policies := after.policies) && HasAccessPlaced(after)
    ensures Placed(after)
  {
    hide HasAccessPlaced;
  }

  /** Nobody else's denials change, none changes outside the subtree of the scope, and a policy that allows
      the right lifts no denial that another scope of the chain holds. */
  lemma PolicyElsewhere(db: Database, a: Id, op: ScopeOps.ScopeOp, s: Id, p: Id, right: Right)
    requires a in db.principals && op.SetPolicy? && ScopeOps.PolicySet(db, a, op).Ok?
    ensures var d := ScopeOps.PolicySet(db, a, op).value;
      && (p != op.principal || !Ancestor(db.scopes, s, op.scope) ==> (Denies(d, s, p, right) <==> Denies(db, s, p, right)))
      && (Allows(Policy("", op.canExport, op.canDelete), right) ==>
            (Denies(d, s, p, right) <==>
               exists k: nat :: DeniedAt(db, s, p, right, k) && (p != op.principal || Up(db.scopes, s, k) != Some(op.scope))))
  {
    var d := ScopeOps.PolicySet(db, a, op).value;
    assert forall k: nat :: Up(db.scopes, s, k) != Some(op.scope) || p != op.principal ==>
      (DeniedAt(d, s, p, right, k) <==> DeniedAt(db, s, p, right, k));
    assert forall k: nat :: Up(db.scopes, s, k) == Some(op.scope) ==> Ancestor(db.scopes, s, op.scope);
    if p == op.principal && Allows(Policy("", op.canExport, op.canDelete), right) {
      assert forall k: nat :: Up(db.scopes, s, k) == Some(op.scope) ==> !DeniedAt(d, s, p, right, k);
    }
  }

  // ---------------------------------------------------------------- ownership

  /** The new owner is admin of the scope, the old one is left with what its flag and its grants give, and
      every other role stays. Only an administrator does it, and never on a personal scope. */
  lemma OwnerPasses(db: Database, a: Id, op: ScopeOps.ScopeOp)
    requires a in db.principals && op.SetOwner? && ScopeOps.OwnerSet(db, a, op).Ok?
    ensures db.principals[a].admin && op.scope in db.scopes && db.scopes[op.scope].kind != Personal
    ensures var d := ScopeOps.OwnerSet(db, a, op).value;
      && op.principal in d.principals && RoleFor(d, op.principal, op.scope) == Ok(Some(Admin))
      && (forall p | p in db.principals && p != op.principal && Owns(db, p, op.scope) ::
            RoleFor(d, p, op.scope) == RoleFor(db.(owners := db.owners - {op.scope}), p, op.scope))
      && (forall p, s | p in db.principals && s in db.scopes && (s != op.scope || (p != op.principal && !Owns(db, p, s))) ::
            RoleFor(d, p, s) == RoleFor(db, p, s))
  {
    hide Chain, GrantedRole;
  }

  // ---------------------------------------------------------------- grants

  lemma GrantedSame(before: map<(Id, Id), Grant>, after: map<(Id, Id), Grant>, p: Id, org: Id, chain: seq<Id>)
    requires forall s :: s in chain ==> ((p, s) in after <==> (p, s) in before)
    requires forall s :: s in chain && (p, s) in before ==> after[(p, s)] == before[(p, s)]
    ensures GrantedRole(after, p, org, chain) == GrantedRole(before, p, org, chain)
  {
    assert forall role: Role :: Granted(after, p, org, chain, role) <==> Granted(before, p, org, chain, role);
  }

  /** Another grant of `p` on `s` touches no role but that of `p` under `s`. */
  lemma GrantElsewhere(db: Database, d: Database, p: Id, s: Id, q: Id, t: Id)
    requires d == db.(grants := d.grants) && q in db.principals && t in db.scopes
    requires forall k :: k != (p, s) ==> (k in d.grants <==> k in db.grants) && (k in db.grants ==> d.grants[k] == db.grants[k])
    requires q != p || !Under(db.scopes, t, s)
    ensures RoleFor(d, q, t) == RoleFor(db, q, t)
  {
    hide Chain, GrantedRole;
    var chain := Chain(db.scopes, t);
    if chain.Ok? { GrantedSame(db.grants, d.grants, q, db.principals[q].org, chain.value); }
  }

  lemma GrantedAtLeast(grants: map<(Id, Id), Grant>, p: Id, org: Id, chain: seq<Id>, s: Id, role: Role)
    requires s in chain && (p, s) in grants && grants[(p, s)] == Grant(org, role)
    ensures AtLeast(GrantedRole(grants, p, org, chain), role)
  {
    assert Granted(grants, p, org, chain, role);
  }

  lemma RoleGrantedTables(db: Database, a: Id, op: PeopleOps.PeopleOp)
    requires Placed(db) && a in db.principals && op.GrantRole? && PeopleOps.RoleGranted(db, a, op).Ok?
    ensures var org := db.principals[a].org;
      && op.scope in db.scopes && db.scopes[op.scope].org == org && db.scopes[op.scope].kind != Personal
      && op.principal in db.principals && db.principals[op.principal].org == org && db.principals[op.principal].active
      && Reaches(db, a, op.scope, Admin)
      && PeopleOps.RoleGranted(db, a, op).value == db.(grants := db.grants[(op.principal, op.scope) := Grant(org, op.role)])
  {
    hide PayloadPlaced, RequireRole;
    var key := (op.principal, op.scope);
    if key in db.grants { assert Lives(db.scopes, op.scope, db.grants[key].org); }
  }

  /** The grantee has at least the granted role on the scope and on everything below it; no other role changes. */
  lemma GrantGives(db: Database, a: Id, op: PeopleOps.PeopleOp, q: Id, t: Id)
    requires Placed(db) && a in db.principals && op.GrantRole? && PeopleOps.RoleGranted(db, a, op).Ok?
    requires q in db.principals && t in db.scopes
    ensures var d := PeopleOps.RoleGranted(db, a, op).value;
      if q == op.principal && Under(db.scopes, t, op.scope) && db.scopes[t].kind != Personal then Reaches(d, q, t, op.role)
      else RoleFor(d, q, t) == RoleFor(db, q, t)
  {
    hide PeopleOps.RoleGranted, Placed, Chain, GrantedRole;
    RoleGrantedTables(db, a, op);
    var d := PeopleOps.RoleGranted(db, a, op).value;
    if q == op.principal && Under(db.scopes, t, op.scope) {
      UnderHome(db.scopes, t, op.scope);
      GrantedAtLeast(d.grants, q, db.principals[q].org, Chain(db.scopes, t).value, op.scope, op.role);
    } else {
      GrantElsewhere(db, d, op.principal, op.scope, q, t);
    }
  }

  lemma UnderHome(scopes: Scopes, s: Id, top: Id)
    requires s in scopes && Under(scopes, s, top)
    ensures top in scopes && scopes[top].org == scopes[s].org
  {
    ChainHome(scopes, scopes[s].org, s, MAX_WALK);
  }

  lemma GrantedMore(before: map<(Id, Id), Grant>, after: map<(Id, Id), Grant>, p: Id, org: Id, chain: seq<Id>, minimum: Role)
    requires forall s :: s in chain && (p, s) in before ==> (p, s) in after && after[(p, s)] == before[(p, s)]
    requires AtLeast(GrantedRole(before, p, org, chain), minimum)
    ensures AtLeast(GrantedRole(after, p, org, chain), minimum)
  {
    assert forall role: Role :: Granted(before, p, org, chain, role) ==> Granted(after, p, org, chain, role);
  }

  /** Fewer grants reach no more. */
  lemma MoreGrants(fewer: Database, more: Database, p: Id, s: Id, minimum: Role)
    requires more == fewer.(grants := more.grants) && p in fewer.principals && s in fewer.scopes
    requires forall k :: k in fewer.grants ==> k in more.grants && more.grants[k] == fewer.grants[k]
    requires Reaches(fewer, p, s, minimum)
    ensures Reaches(more, p, s, minimum)
  {
    hide Chain, GrantedRole;
    var chain := Chain(fewer.scopes, s);
    if chain.Ok? && AtLeast(GrantedRole(fewer.grants, p, fewer.principals[p].org, chain.value), minimum) {
      GrantedMore(fewer.grants, more.grants, p, fewer.principals[p].org, chain.value, minimum);
    }
  }

  /** Revoking a new grant restores the database, unless it would take the admin role of the only active administrator. */
  lemma RevokeUndoesGrant(db: Database, a: Id, op: PeopleOps.PeopleOp)
    requires Placed(db) && a in db.principals && op.GrantRole? && PeopleOps.RoleGranted(db, a, op).Ok?
    requires (op.principal, op.scope) !in db.grants
    ensures PeopleOps.GrantRevoked(PeopleOps.RoleGranted(db, a, op).value, a, PeopleOps.RevokeGrant(op.principal, op.scope))
         == if op.role == Admin && db.principals[op.principal].admin && |PeopleOps.ActiveAdmins(db, db.principals[a].org)| <= 1
            then Err(Denied) else Ok(db)
  {
    hide PeopleOps.RoleGranted, Placed, RequireRole, PeopleOps.ActiveAdmins;
    RoleGrantedTables(db, a, op);
    var d := PeopleOps.RoleGranted(db, a, op).value;
    MoreGrants(db, d, a, op.scope, Admin);
    SameAdmins(db, d, db.principals[a].org);
    assert d.grants - {(op.principal, op.scope)} == db.grants;
  }

  lemma SameAdmins(db: Database, d: Database, org: Id)
    requires d.principals == db.principals
    ensures PeopleOps.ActiveAdmins(d, org) == PeopleOps.ActiveAdmins(db, org)
  {
  }

  /** A revocation raises nobody's role, and changes none but the principal's own under the scope. */
  lemma RevokeTakes(db: Database, a: Id, op: PeopleOps.PeopleOp, q: Id, t: Id, minimum: Role)
    requires a in db.principals && op.RevokeGrant? && PeopleOps.GrantRevoked(db, a, op).Ok?
    requires q in db.principals && t in db.scopes
    ensures var d := PeopleOps.GrantRevoked(db, a, op).value;
      && (Reaches(d, q, t, minimum) ==> Reaches(db, q, t, minimum))
      && (q != op.principal || !Under(db.scopes, t, op.scope) ==> RoleFor(d, q, t) == RoleFor(db, q, t))
  {
    hide RoleFor, RequireRole, Chain, PeopleOps.ActiveAdmins;
    var d := PeopleOps.GrantRevoked(db, a, op).value;
    if Reaches(d, q, t, minimum) { MoreGrants(d, db, q, t, minimum); }
    if q != op.principal || !Under(db.scopes, t, op.scope) { GrantElsewhere(db, d, op.principal, op.scope, q, t); }
  }

  // ---------------------------------------------------------------- new principals

  /** The database after the row of a new principal and before its personal scope. */
  function WithMember(db: Database, id: Id, row: Principal, used: set<Id>): Database {
    db.(used := used, principals := db.principals[id := row])
  }

  /** A new principal has no role on any scope that exists already, unless it is an administrator's. */
  lemma StrangerHasNoRole(db: Database, id: Id, row: Principal, s: Id)
    requires Placed(db) && id !in db.principals && !row.admin && s in db.scopes
    ensures !HasRole(db.(principals := db.principals[id := row]), id, s)
  {
    hide Chain, PayloadPlaced, PoliciesPlaced;
    assert !Owns(db, id, s);
    var chain := Chain(db.scopes, s);
    if chain.Ok? { Ungranted(db.scopes, db.principals, db.grants, id, row.org, chain.value); }
  }

  lemma Ungranted(scopes: Scopes, principals: map<Id, Principal>, grants: map<(Id, Id), Grant>, id: Id, org: Id, chain: seq<Id>)
    requires GrantsPlaced(scopes, principals, grants) && id !in principals
    ensures GrantedRole(grants, id, org, chain) == None
  {
    assert forall k :: k in grants ==> Belongs(principals, k.0, grants[k].org);
  }

  lemma PersonalRole(db: Database, p: Id, id: Id)
    requires Placed(db) && ParentsHome(db.scopes) && p in db.principals && ScopeOps.PersonalEnsured(db, p, id).Ok?
    requires !ScopeOps.HasPersonal(db, p)
    ensures var d := ScopeOps.PersonalEnsured(db, p, id).value;
      && d == ScopeOps.PersonalAdded(db, p, id) && id !in db.scopes
      && d.scopes[id].kind == Personal && RoleFor(d, p, id) == Ok(Some(Admin)) && SameRoles(db, d)
      && forall q :: q in db.principals && q != p ==> RoleFor(d, q, id) == Ok(None)
  {
    hide ScopeOps.HasPersonal, HasAccessPlaced, PayloadPlaced, ParentsHome, Chain, GrantedRole;
    GrownRoles(db, ScopeOps.PersonalEnsured(db, p, id).value);
  }

  lemma MemberCreated(cfg: Config, db: Database, a: Id, op: PeopleOps.PeopleOp)
    requires Placed(db) && a in db.principals && op.CreatePrincipal? && PeopleOps.PrincipalCreated(cfg, db, a, op).Ok?
    ensures var row := Principal(db.principals[a].org, op.name, op.digest, false, true, op.now);
      var d := PeopleOps.PrincipalCreated(cfg, db, a, op).value;
      var member := WithMember(db, op.id, row, db.used + {op.id}).(usage := d.usage);
      && db.principals[a].admin && op.id !in db.principals && op.id !in db.used
      && ScopeOps.PersonalEnsured(member, op.id, op.personal) == Ok(d)
      && !ScopeOps.HasPersonal(member, op.id)
  {
    hide PeopleOps.NameOrTokenTaken, Meter.ActiveUsers, Meter.LimitsFor, Meter.UsageLocked, HasAccessPlaced, PayloadPlaced,
         ScopeOps.PersonalEnsured, ScopeOps.HasPersonal;
    var row := Principal(db.principals[a].org, op.name, op.digest, false, true, op.now);
    NoPersonalYet(db, WithMember(db, op.id, row, db.used + {op.id}).(usage := PeopleOps.PrincipalCreated(cfg, db, a, op).value.usage), op.id);
  }

  lemma MemberPlaced(db: Database, id: Id, row: Principal, usage: map<Id, int>)
    requires Placed(db) && id !in db.used
    ensures Placed(WithMember(db, id, row, db.used + {id}).(usage := usage))
  {
    WithPrincipal(db, id, row, usage);
  }

  /** A new principal is an active member without the administrator flag. It is admin of its own personal
      scope and has a role nowhere else, and nobody else's role changes. */
  lemma NewPrincipalStarts(cfg: Config, db: Database, a: Id, op: PeopleOps.PeopleOp)
    requires Forest(db.scopes) && Placed(db)
    requires a in db.principals && op.CreatePrincipal? && PeopleOps.PrincipalCreated(cfg, db, a, op).Ok?
    ensures var d := PeopleOps.PrincipalCreated(cfg, db, a, op).value;
      && op.id !in db.principals && PeopleOps.Member(d, db.principals[a].org, op.id) && !d.principals[op.id].admin
      && (exists s :: s in d.scopes && d.scopes[s].kind == Personal && RoleFor(d, op.id, s) == Ok(Some(Admin)))
      && (forall s :: s in db.scopes ==> s in d.scopes && !HasRole(d, op.id, s))
      && SameRoles(db, d)
  {
    hide Forest, Placed, ParentsHome, RoleFor, PeopleOps.PrincipalCreated, ScopeOps.PersonalEnsured, ScopeOps.HasPersonal;
    MemberCreated(cfg, db, a, op);
    ForestParents(db.scopes);
    var row := Principal(db.principals[a].org, op.name, op.digest, false, true, op.now);
    var d := PeopleOps.PrincipalCreated(cfg, db, a, op).value;
    var member := WithMember(db, op.id, row, db.used + {op.id}).(usage := d.usage);
    MemberPlaced(db, op.id, row, d.usage);
    PersonalRole(member, op.id, op.personal);
    GrownRoles(db, member);
    forall s | s in db.scopes ensures !HasRole(member, op.id, s) {
      StrangerHasNoRole(db, op.id, row, s);
      SameTablesRole(member, db.(principals := db.principals[op.id := row]), op.id, s);
    }
  }

  lemma SameTablesRole(x: Database, y: Database, p: Id, s: Id)
    requires x.principals == y.principals && x.scopes == y.scopes && x.owners == y.owners && x.grants == y.grants
    requires p in x.principals && s in x.scopes
    ensures RoleFor(x, p, s) == RoleFor(y, p, s)
  {
    hide Chain, GrantedRole;
  }

  // ---------------------------------------------------------------- a new tenant

  /** A new organisation: its administrator is admin of its root and of its own personal scope, nobody of
      another organisation has a role on either, and no role elsewhere changes. */
  lemma TenantStarts(db: Database, t: PeopleOps.Tenant)
    requires Forest(db.scopes) && Placed(db) && PeopleOps.OrganisationCreated(db, t).Ok?
    ensures var d := PeopleOps.OrganisationCreated(db, t).value;
      && t.root in d.scopes && d.scopes[t.root] == Scope(t.org, None, t.name, Organisation)
      && PeopleOps.Member(d, t.org, t.admin) && d.principals[t.admin].admin
      && RoleFor(d, t.admin, t.root) == Ok(Some(Admin))
      && (exists s :: s in d.scopes && d.scopes[s].kind == Personal && RoleFor(d, t.admin, s) == Ok(Some(Admin)))
      && (forall p :: p in db.principals && db.principals[p].org != t.org ==> RoleFor(d, p, t.root) == Ok(None))
      && SameRoles(db, d)
  {
    hide Forest, Placed, RoleFor, ScopeOps.PersonalEnsured, ScopeOps.HasPersonal, PeopleOps.NameOrTokenTaken;
    var middle := RootAdded(db, t);
    ForestParents(db.scopes);
    TenantRoot(db, t);
    PersonalRole(middle, t.admin, t.personal);
    RootRoles(db, t);
    var d := PeopleOps.OrganisationCreated(db, t).value;
    assert forall p :: p in db.principals ==> RoleFor(d, p, t.root) == RoleFor(middle, p, t.root);
  }

  function RootAdded(db: Database, t: PeopleOps.Tenant): Database {
    db.(used := db.used + {t.org, t.root, t.admin},
        orgs := db.orgs[t.org := t.name],
        scopes := db.scopes[t.root := Scope(t.org, None, t.name, Organisation)],
        principals := db.principals[t.admin := Principal(t.org, t.adminName, t.digest, true, true, t.now)])
  }

  lemma TenantRoot(db: Database, t: PeopleOps.Tenant)
    requires ParentsHome(db.scopes) && Placed(db) && PeopleOps.OrganisationCreated(db, t).Ok?
    ensures var middle := RootAdded(db, t);
      && t.root !in db.scopes && t.admin !in db.principals
      && Placed(middle) && ParentsHome(middle.scopes)
      && ScopeOps.PersonalEnsured(middle, t.admin, t.personal) == PeopleOps.OrganisationCreated(db, t)
      && !ScopeOps.HasPersonal(middle, t.admin)
  {
    hide PeopleOps.NameOrTokenTaken, HasAccessPlaced, PayloadPlaced, ScopeOps.PersonalEnsured, ScopeOps.HasPersonal;
    RootPlaced(db, t, RootAdded(db, t));
    NoPersonalYet(db, RootAdded(db, t), t.admin);
  }

  /** Somebody unknown so far owns nothing. */
  lemma NoPersonalYet(db: Database, d: Database, p: Id)
    requires HasAccessPlaced(db) && p !in db.principals && p in d.principals && d.owners == db.owners
    ensures !ScopeOps.HasPersonal(d, p)
  {
    hide PoliciesPlaced, GrantsPlaced;
    forall s | s in db.owners ensures db.owners[s].principal != p {
      assert Belongs(db.principals, db.owners[s].principal, db.owners[s].org);
    }
  }

  lemma RootRoles(db: Database, t: PeopleOps.Tenant)
    requires ParentsHome(db.scopes) && t.root !in db.scopes && t.admin !in db.principals && Placed(db)
    ensures var middle := RootAdded(db, t);
      && SameRoles(db, middle)
      && RoleFor(middle, t.admin, t.root) == Ok(Some(Admin))
      && forall p :: p in db.principals && db.principals[p].org != t.org ==> RoleFor(middle, p, t.root) == Ok(None)
  {
    hide PayloadPlaced, PoliciesPlaced, GrantsPlaced, ParentsHome, Chain, GrantedRole;
    GrownRoles(db, RootAdded(db, t));
  }
}
