/** Exactly when a scope operation succeeds, and what the hierarchy, the roles and the denials are afterwards
    (distributedai/persistence/workspace.py). */
module ScopeLaws {
  import opened Base
  import opened Tables
  import opened ScopeTree
  import opened PlacementProofs
  import opened ForestProofs
  import opened DenialProofs
  import opened AuthorityProofs
  import ScopeOps
  import Meter

  // ---------------------------------------------------------------- ancestors

  /** An ancestor is the scope itself or an ancestor of its parent. */
  lemma AncestorStep(scopes: Scopes, s: Id, a: Id)
    requires s in scopes
    ensures Ancestor(scopes, s, a) <==> a == s || (scopes[s].parent.Some? && Ancestor(scopes, scopes[s].parent.value, a))
  {
    if Ancestor(scopes, s, a) {
      var k: nat :| Up(scopes, s, k) == Some(a);
      if k > 0 { assert Up(scopes, scopes[s].parent.value, k - 1) == Some(a); }
    }
    if a == s { assert Up(scopes, s, 0) == Some(a); }
    if scopes[s].parent.Some? && Ancestor(scopes, scopes[s].parent.value, a) {
      var k: nat :| Up(scopes, scopes[s].parent.value, k) == Some(a);
      assert Up(scopes, s, k + 1) == Some(a);
    }
  }

  lemma AncestorTrans(scopes: Scopes, s: Id, t: Id, a: Id)
    requires Ancestor(scopes, s, t) && Ancestor(scopes, t, a)
    ensures Ancestor(scopes, s, a)
  {
    var j: nat :| Up(scopes, s, j) == Some(t);
    var k: nat :| Up(scopes, t, k) == Some(a);
    UpAdds(scopes, s, j, k);
    assert Up(scopes, s, j + k) == Some(a);
  }

  lemma AncestorKnown(scopes: Scopes, s: Id, a: Id)
    requires Ancestor(scopes, s, a)
    ensures a in scopes
  {
    var k: nat :| Up(scopes, s, k) == Some(a);
  }

  /** A walk on which every scope keeps its parent meets the same ancestors. */
  lemma SameAncestors(before: Scopes, after: Scopes, s: Id, a: Id)
    requires Forest(before) && s in before
    requires forall z :: Ancestor(before, s, z) ==> z in after && z in before && after[z].parent == before[z].parent
    ensures Ancestor(after, s, a) <==> Ancestor(before, s, a)
  {
    forall k: nat ensures Up(after, s, k) == Up(before, s, k) {
      forall j: nat | j <= k && Up(before, s, j).Some? ensures Ancestor(before, s, Up(before, s, j).value) {}
      UpAlong(before, after, s, k);
    }
  }

  // ---------------------------------------------------------------- creation

  /** Some child of the parent has the name. */
  ghost predicate NameUsed(scopes: Scopes, parent: Id, name: string, except: Id) {
    exists s :: s in scopes && s != except && scopes[s].parent == Some(parent) && scopes[s].name == name
  }

  /** A scope is created exactly by an admin of its parent, which is an organisation or a department, as a
      department or project under a name that no sibling has; and then with what was asked for. */
  lemma CreatesExactly(db: Database, a: Id, op: ScopeOps.ScopeOp)
    requires Forest(db.scopes) && Placed(db) && a in db.principals && op.CreateScope?
    ensures ScopeOps.Created(db, a, op).Ok? <==>
      && Holds(db, a, op.parent, Admin)
      && (db.scopes[op.parent].kind == Organisation || db.scopes[op.parent].kind == Department)
      && (op.kind == Department || op.kind == Project)
      && op.id !in db.used && !NameUsed(db.scopes, op.parent, op.name, op.id)
    ensures ScopeOps.Created(db, a, op).Ok? ==>
      ScopeOps.Created(db, a, op).value == db.(
        used := db.used + {op.id},
        scopes := db.scopes[op.id := Scope(db.principals[a].org, Some(op.parent), op.name, op.kind)],
        owners := db.owners[op.id := Owner(db.principals[a].org, a)])
  {
    hide Forest, HasAccessPlaced, PayloadPlaced, RequireRole;
    if op.parent in db.scopes { RequireExactly(db, a, op.parent, Admin); }
  }

  // ---------------------------------------------------------------- policies and owners

  /** Only an administrator sets a policy, on any scope and for any principal of its organisation. */
  lemma SetsPolicyExactly(db: Database, a: Id, op: ScopeOps.ScopeOp)
    requires a in db.principals && op.SetPolicy?
    ensures ScopeOps.PolicySet(db, a, op).Ok? <==>
      && db.principals[a].admin
      && op.scope in db.scopes && db.scopes[op.scope].org == db.principals[a].org
      && op.principal in db.principals && db.principals[op.principal].org == db.principals[a].org
    ensures !db.principals[a].admin ==> ScopeOps.PolicySet(db, a, op) == Err(Denied)
    ensures ScopeOps.PolicySet(db, a, op).Ok? ==> var d := ScopeOps.PolicySet(db, a, op).value;
      && d == db.(policies := d.policies)
      && (op.scope, op.principal) in d.policies
      && d.policies[(op.scope, op.principal)] == Policy(db.principals[a].org, op.canExport, op.canDelete)
      && d.policies - {(op.scope, op.principal)} == db.policies - {(op.scope, op.principal)}
  {
  }

  /** Only an administrator passes ownership on, of a department or project, to an active member. */
  lemma SetsOwnerExactly(db: Database, a: Id, op: ScopeOps.ScopeOp)
    requires a in db.principals && op.SetOwner?
    ensures ScopeOps.OwnerSet(db, a, op).Ok? <==>
      && db.principals[a].admin
      && op.scope in db.scopes && db.scopes[op.scope].org == db.principals[a].org
      && (db.scopes[op.scope].kind == Department || db.scopes[op.scope].kind == Project)
      && op.principal in db.principals && db.principals[op.principal].org == db.principals[a].org && db.principals[op.principal].active
    ensures ScopeOps.OwnerSet(db, a, op).Ok? ==> var d := ScopeOps.OwnerSet(db, a, op).value;
      d == db.(owners := d.owners) && OwnerOf(d, op.principal, op.scope) && d.owners - {op.scope} == db.owners - {op.scope}
  {
  }

  // ---------------------------------------------------------------- a move

  /** A move succeeds exactly for an admin of both ends, of a department or project to an organisation or
      department that is not below it, where no other child has its name, while both walks end. */
  lemma MovesExactly(db: Database, a: Id, op: ScopeOps.ScopeOp)
    requires Forest(db.scopes) && Placed(db) && a in db.principals && op.Move?
    ensures ScopeOps.Moved(db, a, op).Ok? <==>
      && Holds(db, a, op.scope, Admin) && Holds(db, a, op.parent, Admin)
      && (db.scopes[op.scope].kind == Department || db.scopes[op.scope].kind == Project)
      && (db.scopes[op.parent].kind == Organisation || db.scopes[op.parent].kind == Department)
      && !Ancestor(db.scopes, op.parent, op.scope)
      && Up(db.scopes, op.scope, 100) == None && Up(db.scopes, op.parent, 100) == None
      && !NameUsed(db.scopes, op.parent, db.scopes[op.scope].name, op.scope)
  {
    hide Forest, HasAccessPlaced, PayloadPlaced, RequireRole, Chain, ScopeOps.Retained, Ancestor;
    if op.scope in db.scopes && op.parent in db.scopes {
      RequireExactly(db, a, op.scope, Admin);
      RequireExactly(db, a, op.parent, Admin);
      ChainIsAncestors(db.scopes, op.scope);
      ChainIsAncestors(db.scopes, op.parent);
    }
  }

  lemma MovedTables(db: Database, a: Id, op: ScopeOps.ScopeOp)
    requires Forest(db.scopes) && a in db.principals && op.Move? && ScopeOps.Moved(db, a, op).Ok?
    ensures op.scope in db.scopes && op.parent in db.scopes && Chain(db.scopes, op.scope).Ok? && !Ancestor(db.scopes, op.parent, op.scope)
    ensures db.scopes[op.scope].org == db.principals[a].org
    ensures ScopeOps.Moved(db, a, op).value == MovedTo(db, op.scope, op.parent)
  {
    hide Forest, RequireRole, Chain, ScopeOps.Retained, Ancestor;
    ChainIsAncestors(db.scopes, op.parent);
  }

  /** After a move the scope hangs below its new parent, and no other scope changed. */
  lemma MoveMoves(db: Database, a: Id, op: ScopeOps.ScopeOp)
    requires Forest(db.scopes) && a in db.principals && op.Move? && ScopeOps.Moved(db, a, op).Ok?
    ensures var d := ScopeOps.Moved(db, a, op).value;
      && d == db.(policies := d.policies, scopes := d.scopes)
      && d.scopes.Keys == db.scopes.Keys && op.scope in d.scopes
      && d.scopes[op.scope] == db.scopes[op.scope].(parent := Some(op.parent))
      && forall s :: s in db.scopes && s != op.scope ==> d.scopes[s] == db.scopes[s]
  {
    hide Chain, ScopeOps.Retained, Forest;
    MovedTables(db, a, op);
  }

  /** Below `x` the new ancestors are those up to `x` and those of the new parent; elsewhere nothing changes. */
  lemma {:induction false} MovedAncestors(scopes: Scopes, x: Id, to: Id, t: Id, u: Id, depth: nat)
    requires Forest(scopes) && x in scopes && to in scopes && t in scopes && !Ancestor(scopes, to, x)
    requires Up(scopes, t, depth) == None
    ensures Ancestor(Reparented(scopes, x, to), t, u) <==>
      if Ancestor(scopes, t, x) then (Ancestor(scopes, t, u) && Ancestor(scopes, u, x)) || Ancestor(scopes, to, u)
      else Ancestor(scopes, t, u)
    decreases depth
  {
    hide Ancestor, WellPlaced, Rooted;
    var after := Reparented(scopes, x, to);
    AncestorStep(after, t, u);
    AncestorStep(scopes, t, u);
    AncestorStep(scopes, t, x);
    if t == x {
      KeptWalk(scopes, after, x, to);
      SameAncestors(scopes, after, to, u);
      OnlyItself(scopes, x, u);
    } else if scopes[t].parent.Some? {
      ParentKnown(scopes, t);
      MovedAncestors(scopes, x, to, scopes[t].parent.value, u, depth - 1);
      if u == t { NothingAbove(scopes, t); }
    } else {
      OnlyItself(scopes, t, u);
    }
  }

  lemma ParentKnown(scopes: Scopes, t: Id)
    requires Forest(scopes) && t in scopes && scopes[t].parent.Some?
    ensures scopes[t].parent.value in scopes
  {
    assert WellPlaced(scopes, t);
  }

  lemma NothingAbove(scopes: Scopes, t: Id)
    requires t in scopes
    ensures Ancestor(scopes, t, t)
  {
    assert Up(scopes, t, 0) == Some(t);
  }

  /** Two scopes above each other are one. */
  lemma OnlyItself(scopes: Scopes, x: Id, u: Id)
    requires Forest(scopes) && x in scopes
    ensures Ancestor(scopes, x, u) && Ancestor(scopes, u, x) <==> u == x
  {
    NothingAbove(scopes, x);
    if Ancestor(scopes, x, u) && Ancestor(scopes, u, x) && u != x {
      var j: nat :| Up(scopes, x, j) == Some(u);
      var k: nat :| Up(scopes, u, k) == Some(x);
      UpAdds(scopes, x, j, k);
      Acyclic(scopes, x, j + k);
    }
  }

  lemma KeptWalk(scopes: Scopes, after: Scopes, x: Id, s: Id)
    requires x in scopes && !Ancestor(scopes, s, x) && after.Keys == scopes.Keys
    requires forall z :: z in scopes && z != x ==> after[z].parent == scopes[z].parent
    ensures forall z :: Ancestor(scopes, s, z) ==> z in after && z in scopes && after[z].parent == scopes[z].parent
  {
    forall z | Ancestor(scopes, s, z) ensures z in scopes && z != x { AncestorKnown(scopes, s, z); }
  }

  /** Where everything hangs after a move. */
  lemma MoveAncestors(db: Database, a: Id, op: ScopeOps.ScopeOp, t: Id, u: Id)
    requires Forest(db.scopes) && a in db.principals && op.Move? && ScopeOps.Moved(db, a, op).Ok? && t in db.scopes
    ensures Ancestor(ScopeOps.Moved(db, a, op).value.scopes, t, u) <==>
      if Ancestor(db.scopes, t, op.scope) then (Ancestor(db.scopes, t, u) && Ancestor(db.scopes, u, op.scope)) || Ancestor(db.scopes, op.parent, u)
      else Ancestor(db.scopes, t, u)
    ensures Ancestor(ScopeOps.Moved(db, a, op).value.scopes, op.scope, u) <==> u == op.scope || Ancestor(db.scopes, op.parent, u)
  {
    hide Chain, ScopeOps.Retained, ScopeOps.Moved, Ancestor, WellPlaced;
    MovedTables(db, a, op);
    assert Rooted(db.scopes, t) && Rooted(db.scopes, op.scope);
    var k: nat :| Up(db.scopes, t, k) == None;
    MovedAncestors(db.scopes, op.scope, op.parent, t, u, k);
    var j: nat :| Up(db.scopes, op.scope, j) == None;
    MovedAncestors(db.scopes, op.scope, op.parent, op.scope, u, j);
    NothingAbove(db.scopes, op.scope);
    OnlyItself(db.scopes, op.scope, u);
  }

  lemma MovedDepth(db: Database, a: Id, op: ScopeOps.ScopeOp)
    requires Forest(db.scopes) && a in db.principals && op.Move? && ScopeOps.Moved(db, a, op).Ok?
    ensures Up(ScopeOps.Moved(db, a, op).value.scopes, op.scope, 100) == Up(db.scopes, op.parent, 99)
  {
    hide Chain, ScopeOps.Retained, ScopeOps.Moved, Ancestor, Forest;
    MovedTables(db, a, op);
    var after := ScopeOps.Moved(db, a, op).value.scopes;
    KeptWalk(db.scopes, after, op.scope, op.parent);
    SameUp(db.scopes, after, op.parent, 99);
  }

  lemma SameUp(before: Scopes, after: Scopes, s: Id, k: nat)
    requires Forest(before) && s in before
    requires forall z :: Ancestor(before, s, z) ==> z in after && z in before && after[z].parent == before[z].parent
    ensures Up(after, s, k) == Up(before, s, k)
  {
    forall j: nat | j <= k && Up(before, s, j).Some? ensures Ancestor(before, s, Up(before, s, j).value) {}
    UpAlong(before, after, s, k);
  }

  /** Who may act on a moved scope: its owner and the administrators as before, and otherwise exactly those
      with a grant on the scope itself or at or above its new parent. What only the old path carried is gone. */
  lemma MoveRoles(db: Database, a: Id, op: ScopeOps.ScopeOp, p: Id, minimum: Role)
    requires Forest(db.scopes) && Placed(db) && a in db.principals && op.Move? && ScopeOps.Moved(db, a, op).Ok? && p in db.principals
    ensures op.scope in ScopeOps.Moved(db, a, op).value.scopes
    ensures var d := ScopeOps.Moved(db, a, op).value;
      (RequireRole(d, p, op.scope, minimum).Pass? <==>
        && db.scopes[op.scope].org == db.principals[p].org
        && (|| OwnerOf(db, p, op.scope) || db.principals[p].admin
            || (Up(db.scopes, op.parent, 99) == None
                && exists b :: (b == op.scope || Ancestor(db.scopes, op.parent, b)) && (p, b) in db.grants
                     && Meets(db.grants[(p, b)].role, minimum))))
  {
    hide Forest, HasAccessPlaced, PayloadPlaced, ScopeOps.Moved, RequireRole, Ancestor, Chain, ScopeOps.Retained;
    var d := ScopeOps.Moved(db, a, op).value;
    MoveMoves(db, a, op);
    MovedPlaced(db, a, op);
    MovedKeeps(db, a, op);
    MovesExactly(db, a, op);
    RequireExactly(d, p, op.scope, minimum);
    MovedDepth(db, a, op);
    forall b ensures Ancestor(d.scopes, op.scope, b) <==> b == op.scope || Ancestor(db.scopes, op.parent, b) {
      MoveAncestors(db, a, op, op.scope, b);
    }
  }

  /** Outside the moved subtree no role changes. */
  lemma MoveRolesElsewhere(db: Database, a: Id, op: ScopeOps.ScopeOp, t: Id, p: Id, minimum: Role)
    requires Forest(db.scopes) && Placed(db) && a in db.principals && op.Move? && ScopeOps.Moved(db, a, op).Ok?
    requires p in db.principals && t in db.scopes && !Ancestor(db.scopes, t, op.scope)
    ensures var d := ScopeOps.Moved(db, a, op).value;
      t in d.scopes && (RequireRole(d, p, t, minimum).Pass? <==> RequireRole(db, p, t, minimum).Pass?)
  {
    hide Forest, HasAccessPlaced, PayloadPlaced, ScopeOps.Moved, RequireRole, Ancestor, Chain, ScopeOps.Retained;
    var d := ScopeOps.Moved(db, a, op).value;
    MoveMoves(db, a, op);
    MovedPlaced(db, a, op);
    MovedKeeps(db, a, op);
    RequireExactly(db, p, t, minimum);
    RequireExactly(d, p, t, minimum);
    NotUnder(db.scopes, op.scope, t);
    KeptWalk(db.scopes, d.scopes, op.scope, t);
    SameUp(db.scopes, d.scopes, t, 100);
    forall b ensures Ancestor(d.scopes, t, b) <==> Ancestor(db.scopes, t, b) { MoveAncestors(db, a, op, t, b); }
  }

  lemma NotUnder(scopes: Scopes, x: Id, t: Id)
    requires t in scopes && !Ancestor(scopes, t, x)
    ensures t != x
  {
    NothingAbove(scopes, t);
  }

  // ---------------------------------------------------------------- retained policies

  predicate Lets(policy: Policy, right: Right) {
    if right == Export then policy.canExport else policy.canDelete
  }

  /** After retaining the source's restrictions on the destination, a policy says no exactly where it said no
      before, or on the destination where the source's chain says no. */
  lemma RetainedExactly(db: Database, source: Id, destination: Id, k: (Id, Id), right: Right)
    requires Forest(db.scopes) && Placed(db) && source in db.scopes && Chain(db.scopes, source).Ok?
    ensures var after := ScopeOps.Retained(db.policies, db.scopes[source].org, Chain(db.scopes, source).value, destination);
      (k in after && !Lets(after[k], right)) <==>
        || (k in db.policies && !Lets(db.policies[k], right))
        || (k.0 == destination && Withheld(db, k.1, source, right))
  {
    hide Forest, Placed, Chain, Denies, ChainAllows, Withheld;
    var org, chain := db.scopes[source].org, Chain(db.scopes, source).value;
    var after := ScopeOps.Retained(db.policies, org, chain, destination);
    DeniesWithheld(db, k.1, source, right);
    ChainDenies(db, source, k.1, right);
    assert k == (k.0, k.1);
    if k.1 in ScopeOps.Restricted(db.policies, org, chain) {
      if k.0 == destination { assert after[k] == ScopeOps.Narrowed(db.policies, org, chain, destination, k.1); }
    } else {
      Unrestricted(db.policies, org, chain, k.1, right);
    }
  }

  lemma Unrestricted(policies: map<(Id, Id), Policy>, org: Id, chain: seq<Id>, p: Id, right: Right)
    requires p !in ScopeOps.Restricted(policies, org, chain)
    ensures ChainAllows(policies, org, chain, p, right)
  {
    assert forall k :: k in policies && k.0 in chain && policies[k].org == org && ScopeOps.Restrictive(policies[k]) ==>
      k.1 in ScopeOps.Restricted(policies, org, chain);
  }

  lemma WithheldBy(db: Database, p: Id, s: Id, right: Right, a: Id)
    requires Ancestor(db.scopes, s, a) && (a, p) in db.policies && !Lets(db.policies[(a, p)], right)
    ensures Withheld(db, p, s, right)
  {
  }

  lemma Withholder(db: Database, p: Id, s: Id, right: Right) returns (a: Id)
    requires Withheld(db, p, s, right)
    ensures Ancestor(db.scopes, s, a) && (a, p) in db.policies && !Lets(db.policies[(a, p)], right)
  {
    a :| Ancestor(db.scopes, s, a) && (a, p) in db.policies
      && if right == Export then !db.policies[(a, p)].canExport else !db.policies[(a, p)].canDelete;
  }

  /** What is withheld from the scopes above is withheld. */
  lemma WithheldAbove(db: Database, p: Id, s: Id, t: Id, right: Right)
    requires Ancestor(db.scopes, s, t) && Withheld(db, p, t, right)
    ensures Withheld(db, p, s, right)
  {
    hide Ancestor, Withheld;
    var a := Withholder(db, p, t, right);
    AncestorTrans(db.scopes, s, t, a);
    WithheldBy(db, p, s, right, a);
  }

  /** A move takes nothing from anybody but what the new place withholds, and gives nothing back: below the
      moved scope exactly the old denials and those of the new parent are in force, elsewhere the old ones. */
  lemma MoveWithholds(db: Database, a: Id, op: ScopeOps.ScopeOp, t: Id, p: Id, right: Right)
    requires Forest(db.scopes) && Placed(db) && a in db.principals && op.Move? && ScopeOps.Moved(db, a, op).Ok? && t in db.scopes
    ensures Withheld(ScopeOps.Moved(db, a, op).value, p, t, right) <==>
      || Withheld(db, p, t, right)
      || (Ancestor(db.scopes, t, op.scope) && Withheld(db, p, op.parent, right))
  {
    hide Forest, Placed, Chain, Ancestor, Withheld, ScopeOps.Moved, ScopeOps.Retained;
    var x, to := op.scope, op.parent;
    var d := ScopeOps.Moved(db, a, op).value;
    MovedTables(db, a, op);
    MoveKeepsWithheld(db, a, op, t, p, right);
    if Ancestor(db.scopes, t, x) && Withheld(db, p, to, right) {
      var b := Withholder(db, p, to, right);
      RetainedExactly(db, x, x, (b, p), right);
      MoveAncestors(db, a, op, t, b);
      WithheldBy(d, p, t, right, b);
    }
    if Withheld(d, p, t, right) {
      var b := Withholder(d, p, t, right);
      RetainedExactly(db, x, x, (b, p), right);
      MoveAncestors(db, a, op, t, b);
      if (b, p) in db.policies && !Lets(db.policies[(b, p)], right) {
        if Ancestor(db.scopes, t, b) { WithheldBy(db, p, t, right, b); } else { WithheldBy(db, p, to, right, b); }
      } else {
        WithheldAbove(db, p, t, x, right);
      }
    }
  }

  lemma MoveKeepsWithheld(db: Database, a: Id, op: ScopeOps.ScopeOp, t: Id, p: Id, right: Right)
    requires Forest(db.scopes) && Placed(db) && a in db.principals && op.Move? && ScopeOps.Moved(db, a, op).Ok? && t in db.scopes
    ensures Withheld(db, p, t, right) ==> Withheld(ScopeOps.Moved(db, a, op).value, p, t, right)
  {
    hide Forest, Placed, ScopeOps.Moved, Withheld, Denies;
    DeniesWithheld(db, p, t, right);
    DeniesWithheld(ScopeOps.Moved(db, a, op).value, p, t, right);
    if Denies(db, t, p, right) { MovedKeepsDenials(db, a, op, t, p, right); }
  }

  // ---------------------------------------------------------------- a deletion

  /** Some row lives in the scope. */
  ghost predicate HasRows(db: Database, s: Id) {
    || (exists k :: k in db.records && k.0 == s)
    || (exists k :: k in db.versions && k.0 == s)
    || (exists i :: i in db.proposals && db.proposals[i].scope == s)
    || (exists i :: i in db.messages && db.messages[i].scope == s)
    || (exists i :: i in db.jobs && db.jobs[i].scope == s)
  }

  lemma RowsAreData(db: Database, s: Id)
    ensures ScopeOps.HasData(db, s) <==> HasRows(db, s)
  {
  }

  /** Exactly those who have the right to delete on a department or project without children delete it, with its
      contents or when it has none. */
  lemma DeletesScopeExactly(cfg: Config, db: Database, a: Id, op: ScopeOps.ScopeOp)
    requires Forest(db.scopes) && Placed(db) && a in db.principals && op.DeleteScope?
    ensures ScopeOps.Deleted(cfg, db, a, op).Ok? <==>
      && HasRight(db, a, op.scope, Delete)
      && (db.scopes[op.scope].kind == Department || db.scopes[op.scope].kind == Project)
      && (forall c :: c in db.scopes ==> db.scopes[c].parent != Some(op.scope))
      && (op.contents || !HasRows(db, op.scope))
  {
    hide Forest, Placed, RequireRole, Permitted, Holds, Withheld, ScopeOps.HasData, ScopeOps.Purged, ScopeOps.Dropped, Meter.Recounted,
         HasRows;
    RowsAreData(db, op.scope);
    if op.scope in db.scopes {
      RightExactly(db, a, op.scope, Delete);
      RequireExactly(db, a, op.scope, Admin);
    }
    HolderOrg(db, a, op.scope);
  }

  lemma HolderOrg(db: Database, a: Id, s: Id)
    ensures Holds(db, a, s, Admin) ==> a in db.principals && s in db.scopes && db.scopes[s].org == db.principals[a].org
  {
  }

  /** A deletion takes away the scope with its owner, policies and grants, and no other. */
  lemma DeletionKeepsAccess(cfg: Config, db: Database, a: Id, op: ScopeOps.ScopeOp, k: (Id, Id))
    requires a in db.principals && op.DeleteScope? && ScopeOps.Deleted(cfg, db, a, op).Ok?
    ensures var d := ScopeOps.Deleted(cfg, db, a, op).value;
      && d.scopes == db.scopes - {op.scope} && d.owners == db.owners - {op.scope}
      && (k in d.policies <==> k in db.policies && k.0 != op.scope) && (k in d.policies ==> d.policies[k] == db.policies[k])
      && (k in d.grants <==> k in db.grants && k.1 != op.scope) && (k in d.grants ==> d.grants[k] == db.grants[k])
  {
    hide RequireRole, Permitted, ScopeOps.HasChild, ScopeOps.HasData, ScopeOps.Purged, Meter.Recounted, ScopeOps.Dropped;
    var org := db.principals[a].org;
    var before := if op.contents then Meter.Recounted(cfg, ScopeOps.Purged(db, org, op.scope), org) else db;
    PurgeKeepsOthers(db, org, op.scope, "");
    DropTakes(before, op.scope, k);
  }

  lemma DropTakes(db: Database, s: Id, k: (Id, Id))
    ensures var d := ScopeOps.Dropped(db, s);
      && d.scopes == db.scopes - {s} && d.owners == db.owners - {s}
      && (k in d.policies <==> k in db.policies && k.0 != s) && (k in d.policies ==> d.policies[k] == db.policies[k])
      && (k in d.grants <==> k in db.grants && k.1 != s) && (k in d.grants ==> d.grants[k] == db.grants[k])
  {
  }

  /** A deletion leaves every proposal, message and job of every other scope. */
  lemma DeletionKeepsRows(cfg: Config, db: Database, a: Id, op: ScopeOps.ScopeOp, i: Id)
    requires a in db.principals && op.DeleteScope? && ScopeOps.Deleted(cfg, db, a, op).Ok?
    ensures var d := ScopeOps.Deleted(cfg, db, a, op).value;
      && (i in db.proposals && db.proposals[i].scope != op.scope ==> i in d.proposals && d.proposals[i] == db.proposals[i])
      && (i in db.messages && db.messages[i].scope != op.scope ==> i in d.messages && d.messages[i] == db.messages[i])
      && (i in db.jobs && db.jobs[i].scope != op.scope ==> i in d.jobs && d.jobs[i] == db.jobs[i])
  {
    hide RequireRole, Permitted, ScopeOps.HasChild, ScopeOps.HasData, ScopeOps.Purged, Meter.Recounted, ScopeOps.Dropped;
    var org := db.principals[a].org;
    var before := if op.contents then Meter.Recounted(cfg, ScopeOps.Purged(db, org, op.scope), org) else db;
    PurgeKeepsOthers(db, org, op.scope, i);
    DropKeepsRows(before, op.scope);
  }

  lemma DropKeepsRows(db: Database, s: Id)
    ensures var d := ScopeOps.Dropped(db, s);
      d.proposals == db.proposals && d.messages == db.messages && d.jobs == db.jobs
  {
  }

  lemma PurgeKeepsOthers(db: Database, org: Id, s: Id, i: Id)
    ensures var d := ScopeOps.Purged(db, org, s);
      && d == db.(records := d.records, versions := d.versions, proposals := d.proposals, messages := d.messages, jobs := d.jobs)
      && (i in db.proposals && db.proposals[i].scope != s ==> i in d.proposals && d.proposals[i] == db.proposals[i])
      && (i in db.messages && db.messages[i].scope != s ==> i in d.messages && d.messages[i] == db.messages[i])
      && (i in db.jobs && db.jobs[i].scope != s ==> i in d.jobs && d.jobs[i] == db.jobs[i])
  {
  }

  // ---------------------------------------------------------------- personal scopes

  /** Opening one's personal scope finds the one there is, or adds one that is owned by the principal. */
  lemma OpensPersonalExactly(db: Database, p: Id, id: Id)
    requires p in db.principals
    ensures var found := exists s :: s in db.scopes && db.scopes[s].kind == Personal && db.scopes[s].org == db.principals[p].org && OwnerOf(db, p, s);
      ScopeOps.PersonalEnsured(db, p, id) ==
        if found then Ok(db)
        else if id in db.used then Err(Conflict)
        else Ok(db.(used := db.used + {id},
                    scopes := db.scopes[id := Scope(db.principals[p].org, None, "Personal memory", Personal)],
                    owners := db.owners[id := Owner(db.principals[p].org, p)]))
  {
  }
}
