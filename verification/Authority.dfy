/** Who has which role and which right, in terms of the rows alone: grants at ancestors, owners, administrator
    flags and policies (distributedai/persistence/workspace.py). */
module AuthorityProofs {
  import opened Base
  import opened Tables
  import opened ScopeTree
  import opened PlacementProofs
  import opened DenialProofs

  // ---------------------------------------------------------------- roles

  /** `reader < writer < reviewer < admin`. */
  predicate Meets(role: Role, minimum: Role) {
    match minimum
    case Reader => true
    case Writer => role != Reader
    case Reviewer => role == Reviewer || role == Admin
    case Admin => role == Admin
  }

  lemma RankMeets(role: Role, minimum: Role)
    ensures role.Rank() >= minimum.Rank() <==> Meets(role, minimum)
  {
  }

  /** A grant of `p` on the scope or on one of its ancestors. */
  ghost predicate GrantAbove(db: Database, p: Id, s: Id, a: Id) {
    Ancestor(db.scopes, s, a) && (p, a) in db.grants
  }

  /** `p` owns the scope. */
  predicate OwnerOf(db: Database, p: Id, s: Id) { s in db.owners && db.owners[s].principal == p }

  /** Roles come from grants only: the scope is not personal, and `p` is of its organisation, but neither an
      administrator nor the owner. */
  predicate ByGrants(db: Database, p: Id, s: Id) {
    && p in db.principals && s in db.scopes && db.scopes[s].org == db.principals[p].org
    && db.scopes[s].kind != Personal && !db.principals[p].admin && !OwnerOf(db, p, s)
  }

  /** On the chain of a scope the grants of `p` are its grants at the ancestors. */
  lemma ChainGrants(db: Database, p: Id, s: Id, role: Role)
    requires Forest(db.scopes) && Placed(db) && s in db.scopes && Chain(db.scopes, s).Ok?
    ensures Granted(db.grants, p, db.scopes[s].org, Chain(db.scopes, s).value, role)
       <==> exists a :: GrantAbove(db, p, s, a) && db.grants[(p, a)].role == role
  {
    hide Chain, Known, PayloadPlaced, OwnersPlaced, PoliciesPlaced, Forest, Ancestor;
    var chain := Chain(db.scopes, s).value;
    ChainIsAncestors(db.scopes, s);
    forall a | GrantAbove(db, p, s, a) && db.grants[(p, a)].role == role
      ensures a in chain && db.grants[(p, a)] == Grant(db.scopes[s].org, role)
    {
      AncestorOrg(db.scopes, s, a);
      assert Lives(db.scopes, a, db.grants[(p, a)].org);
    }
  }

  lemma AncestorOrg(scopes: Scopes, s: Id, a: Id)
    requires Forest(scopes) && s in scopes && Ancestor(scopes, s, a)
    ensures a in scopes && scopes[a].org == scopes[s].org
  {
    var k: nat :| Up(scopes, s, k) == Some(a);
    UpOrg(scopes, s, k);
  }

  /** The effective role of everybody whose roles come from grants: the highest role of its grants at the
      ancestors of the scope, no more and no less, or an error when the walk does not end. */
  lemma RoleExactly(db: Database, p: Id, s: Id, r: Role)
    requires Forest(db.scopes) && Placed(db) && ByGrants(db, p, s)
    ensures RoleFor(db, p, s).Err? <==> Up(db.scopes, s, 100).Some?
    ensures Up(db.scopes, s, 100) == None ==>
      && (RoleFor(db, p, s) == Ok(Some(r)) <==>
            && (exists a :: GrantAbove(db, p, s, a) && db.grants[(p, a)].role == r)
            && (forall a :: GrantAbove(db, p, s, a) ==> Meets(r, db.grants[(p, a)].role)))
      && (RoleFor(db, p, s) == Ok(None) <==> !exists a :: GrantAbove(db, p, s, a))
  {
    hide Chain, Forest, Placed, GrantAbove, Granted;
    ChainIsAncestors(db.scopes, s);
    GrantsNamed(db, p, s);
    if Chain(db.scopes, s).Ok? {
      forall role: Role { ChainGrants(db, p, s, role); }
      HighestGranted(db, p, s, Chain(db.scopes, s).value, r);
    }
  }

  lemma GrantsNamed(db: Database, p: Id, s: Id)
    ensures forall a :: GrantAbove(db, p, s, a) ==> (p, a) in db.grants
  {
  }

  lemma HighestGranted(db: Database, p: Id, s: Id, chain: seq<Id>, r: Role)
    requires forall a :: GrantAbove(db, p, s, a) ==> (p, a) in db.grants
    requires forall role: Role, org: Id | s in db.scopes && org == db.scopes[s].org ::
      Granted(db.grants, p, org, chain, role) <==> exists a :: GrantAbove(db, p, s, a) && db.grants[(p, a)].role == role
    requires s in db.scopes
    ensures var best := GrantedRole(db.grants, p, db.scopes[s].org, chain);
      && (best == Some(r) <==>
            && (exists a :: GrantAbove(db, p, s, a) && db.grants[(p, a)].role == r)
            && (forall a :: GrantAbove(db, p, s, a) ==> Meets(r, db.grants[(p, a)].role)))
      && (best == None <==> !exists a :: GrantAbove(db, p, s, a))
  {
    hide Granted, GrantAbove;
    var org := db.scopes[s].org;
    forall a | GrantAbove(db, p, s, a) ensures Granted(db.grants, p, org, chain, db.grants[(p, a)].role) {}
    assert r in {Reader, Writer, Reviewer, Admin};
  }

  /** Everybody else: nothing across organisations, the owner alone on a personal scope, administrators and
      owners as admins. */
  lemma RoleWithoutGrants(db: Database, p: Id, s: Id)
    requires p in db.principals && s in db.scopes && !ByGrants(db, p, s)
    ensures RoleFor(db, p, s) == Ok(
      if db.scopes[s].org != db.principals[p].org then None
      else if db.scopes[s].kind == Personal && !OwnerOf(db, p, s) then None
      else Some(Admin))
  {
    hide Chain, GrantedRole;
  }

  /** `p` may act on the scope as `minimum` or more. */
  ghost predicate Holds(db: Database, p: Id, s: Id, minimum: Role) {
    && p in db.principals && s in db.scopes && db.scopes[s].org == db.principals[p].org
    && (|| OwnerOf(db, p, s)
        || (db.scopes[s].kind != Personal && db.principals[p].admin)
        || (db.scopes[s].kind != Personal && Up(db.scopes, s, 100) == None
            && exists a :: GrantAbove(db, p, s, a) && Meets(db.grants[(p, a)].role, minimum)))
  }

  /** The role check of every operation passes exactly for those. */
  lemma RequireExactly(db: Database, p: Id, s: Id, minimum: Role)
    requires Forest(db.scopes) && Placed(db) && p in db.principals && s in db.scopes
    ensures RequireRole(db, p, s, minimum).Pass? <==> Holds(db, p, s, minimum)
  {
    hide Forest, Placed, GrantAbove, RoleFor;
    var role := RoleFor(db, p, s);
    if !ByGrants(db, p, s) { RoleWithoutGrants(db, p, s); RankMeets(Admin, minimum); }
    else if role.Ok? && role.value.Some? {
      var r := role.value.value;
      RoleExactly(db, p, s, r);
      RankMeets(r, minimum);
      forall q: Role | Meets(r, q) && Meets(q, minimum) ensures Meets(r, minimum) {}
    } else {
      RoleExactly(db, p, s, Admin);
    }
  }

  // ---------------------------------------------------------------- rights

  /** A policy of `p` on the scope or on one of its ancestors says no. */
  ghost predicate Withheld(db: Database, p: Id, s: Id, right: Right) {
    exists a :: Ancestor(db.scopes, s, a) && (a, p) in db.policies
      && if right == Export then !db.policies[(a, p)].canExport else !db.policies[(a, p)].canDelete
  }

  lemma DeniesWithheld(db: Database, p: Id, s: Id, right: Right)
    ensures Denies(db, s, p, right) <==> Withheld(db, p, s, right)
  {
    if Denies(db, s, p, right) {
      var k: nat :| DeniedAt(db, s, p, right, k);
      assert Ancestor(db.scopes, s, Up(db.scopes, s, k).value);
    }
    if Withheld(db, p, s, right) {
      var a :| Ancestor(db.scopes, s, a) && (a, p) in db.policies
        && if right == Export then !db.policies[(a, p)].canExport else !db.policies[(a, p)].canDelete;
      var k: nat :| Up(db.scopes, s, k) == Some(a);
      assert DeniedAt(db, s, p, right, k);
    }
  }

  /** `p` may export, or delete, the contents of the scope. */
  ghost predicate HasRight(db: Database, p: Id, s: Id, right: Right) {
    Holds(db, p, s, Admin) && Up(db.scopes, s, 100) == None && !Withheld(db, p, s, right)
  }

  /** A right is permitted exactly to those who are admin of the scope and from whom no policy withholds it. */
  lemma RightExactly(db: Database, p: Id, s: Id, right: Right)
    requires Forest(db.scopes) && Placed(db) && p in db.principals && s in db.scopes
    ensures Permitted(db, p, s, right) == Ok(true) <==> HasRight(db, p, s, right)
    ensures Permitted(db, p, s, right).Err? ==> !HasRight(db, p, s, right)
  {
    hide Forest, Placed, Permitted, RoleFor, Denies, Withheld, Holds;
    PermittedExactly(db, s, p, right);
    RequireExactly(db, p, s, Admin);
    DeniesWithheld(db, p, s, right);
    var role := RoleFor(db, p, s);
    if role.Ok? && role.value.Some? { RankMeets(role.value.value, Admin); }
  }
}
