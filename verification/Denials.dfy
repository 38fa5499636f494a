/** Export and delete denials: no change of the hierarchy ever loosens one. */
module DenialProofs {
  import opened Base
  import opened Tables
  import opened ScopeTree
  import opened PlacementProofs
  import opened ForestProofs
  import ScopeOps
  import PeopleOps
  import MemoryOps
  import JobOps
  import SlotOps
  import Meter
  import opened Workspace

  // ---------------------------------------------------------------- denials decide permissions

  lemma {:induction false} UpOrg(scopes: Scopes, s: Id, k: nat)
    requires ParentsHome(scopes) && s in scopes && Up(scopes, s, k).Some?
    ensures scopes[Up(scopes, s, k).value].org == scopes[s].org
    decreases k
  {
    if k > 0 { UpOrg(scopes, scopes[s].parent.value, k - 1); }
  }

  /** The chain withholds the right exactly when some ancestor denies it. */
  lemma ChainDenies(db: Database, s: Id, p: Id, right: Right)
    requires Forest(db.scopes) && Placed(db) && s in db.scopes && Chain(db.scopes, s).Ok?
    ensures ChainAllows(db.policies, db.scopes[s].org, Chain(db.scopes, s).value, p, right) <==> !Denies(db, s, p, right)
  {
    hide Chain, Known, PayloadPlaced, OwnersPlaced, GrantsPlaced;
    var chain := Chain(db.scopes, s).value;
    ChainIsAncestors(db.scopes, s);
    if Denies(db, s, p, right) {
      var k: nat :| DeniedAt(db, s, p, right, k);
      var a := Up(db.scopes, s, k).value;
      assert Ancestor(db.scopes, s, a);
      UpOrg(db.scopes, s, k);
      assert Lives(db.scopes, a, db.policies[(a, p)].org);
      assert a in chain;
    }
    if !ChainAllows(db.policies, db.scopes[s].org, chain, p, right) {
      var a :| a in chain && (a, p) in db.policies && !Allows(db.policies[(a, p)], right);
      assert Ancestor(db.scopes, s, a);
      var k: nat :| Up(db.scopes, s, k) == Some(a);
      assert DeniedAt(db, s, p, right, k);
    }
  }

  /** A right is permitted exactly to an admin of the scope whom no ancestor denies it, while the walk ends. */
  lemma PermittedExactly(db: Database, s: Id, p: Id, right: Right)
    requires Forest(db.scopes) && Placed(db) && s in db.scopes && p in db.principals
    ensures Permitted(db, p, s, right) == Ok(true)
       <==> RoleFor(db, p, s) == Ok(Some(Admin)) && Up(db.scopes, s, MAX_WALK) == None && !Denies(db, s, p, right)
  {
    hide Chain, Placed, Denies, ChainAllows, GrantedRole, Owns;
    ChainIsAncestors(db.scopes, s);
    if Chain(db.scopes, s).Ok? { ChainDenies(db, s, p, right); }
  }

  // ---------------------------------------------------------------- retained restrictions

  lemma RetainedKeeps(policies: map<(Id, Id), Policy>, org: Id, chain: seq<Id>, destination: Id, k: (Id, Id), right: Right)
    requires k in policies && !Allows(policies[k], right)
    ensures var after := ScopeOps.Retained(policies, org, chain, destination); k in after && !Allows(after[k], right)
  {
    hide ChainAllows;
    var after := ScopeOps.Retained(policies, org, chain, destination);
    if k.0 == destination && k.1 in ScopeOps.Restricted(policies, org, chain) {
      assert k == (destination, k.1);
      assert after[k] == ScopeOps.Narrowed(policies, org, chain, destination, k.1);
    } else {
      assert after[k] == policies[k];
    }
  }

  lemma RetainedCopies(policies: map<(Id, Id), Policy>, org: Id, chain: seq<Id>, destination: Id, k: (Id, Id), right: Right)
    requires k in policies && k.0 in chain && policies[k].org == org && !Allows(policies[k], right)
    ensures var after := ScopeOps.Retained(policies, org, chain, destination);
      (destination, k.1) in after && !Allows(after[(destination, k.1)], right)
  {
    var after := ScopeOps.Retained(policies, org, chain, destination);
    var p := k.1;
    assert k == (k.0, p);
    assert p in ScopeOps.Restricted(policies, org, chain);
    assert after[(destination, p)] == ScopeOps.Narrowed(policies, org, chain, destination, p);
  }

  /** Whatever the source's chain denies, the destination denies afterwards. */
  lemma RetainedDenies(db: Database, source: Id, destination: Id, p: Id, right: Right)
    requires Forest(db.scopes) && Placed(db) && source in db.scopes && Chain(db.scopes, source).Ok?
    requires Denies(db, source, p, right)
    ensures var after := ScopeOps.Retained(db.policies, db.scopes[source].org, Chain(db.scopes, source).value, destination);
      (destination, p) in after && !Allows(after[(destination, p)], right)
  {
    hide Chain, ScopeOps.Retained, Known, PayloadPlaced, OwnersPlaced, GrantsPlaced;
    var k: nat :| DeniedAt(db, source, p, right, k);
    var a := Up(db.scopes, source, k).value;
    ChainIsAncestors(db.scopes, source);
    assert Ancestor(db.scopes, source, a);
    UpOrg(db.scopes, source, k);
    assert Lives(db.scopes, a, db.policies[(a, p)].org);
    RetainedCopies(db.policies, db.scopes[source].org, Chain(db.scopes, source).value, destination, (a, p), right);
  }

  // ---------------------------------------------------------------- each change of the hierarchy

  lemma DeniedAbove(db: Database, s: Id, p: Id, right: Right)
    requires s in db.scopes && db.scopes[s].parent.Some? && Denies(db, db.scopes[s].parent.value, p, right)
    ensures Denies(db, s, p, right)
  {
    var k: nat :| DeniedAt(db, db.scopes[s].parent.value, p, right, k);
    assert DeniedAt(db, s, p, right, k + 1);
  }

  lemma DeniedHere(db: Database, s: Id, p: Id, right: Right)
    requires s in db.scopes && (s, p) in db.policies && !Allows(db.policies[(s, p)], right)
    ensures Denies(db, s, p, right)
  {
    assert DeniedAt(db, s, p, right, 0);
  }

  /** New scopes do not change what an old one denies. */
  lemma GrownDenies(before: Database, after: Database, s: Id, p: Id, right: Right)
    requires Forest(before.scopes) && s in before.scopes && Denies(before, s, p, right)
    requires after.policies == before.policies
    requires forall z :: z in before.scopes ==> z in after.scopes && after.scopes[z].parent == before.scopes[z].parent
    ensures Denies(after, s, p, right)
  {
    var k: nat :| DeniedAt(before, s, p, right, k);
    UpKept(before.scopes, after.scopes, s, k);
    assert DeniedAt(after, s, p, right, k);
  }

  ghost function MovedTo(db: Database, x: Id, parent: Id): Database
    requires x in db.scopes && Chain(db.scopes, x).Ok?
  {
    db.(policies := ScopeOps.Retained(db.policies, db.scopes[x].org, Chain(db.scopes, x).value, x),
        scopes := Reparented(db.scopes, x, parent))
  }

  lemma {:induction false} MoveDenies(db: Database, x: Id, parent: Id, s: Id, p: Id, right: Right, k: nat)
    requires Forest(db.scopes) && Placed(db) && x in db.scopes && Chain(db.scopes, x).Ok?
    requires s in db.scopes && DeniedAt(db, s, p, right, k)
    ensures Denies(MovedTo(db, x, parent), s, p, right)
    decreases k
  {
    hide Chain, ScopeOps.Retained, Placed, Denies;
    var d := MovedTo(db, x, parent);
    var chain := Chain(db.scopes, x).value;
    if s == x {
      assert Denies(db, x, p, right) by { DeniedSome(db, x, p, right, k); }
      RetainedDenies(db, x, x, p, right);
      DeniedHere(d, x, p, right);
    } else if k == 0 {
      RetainedKeeps(db.policies, db.scopes[x].org, chain, x, (s, p), right);
      DeniedHere(d, s, p, right);
    } else {
      MoveDenies(db, x, parent, db.scopes[s].parent.value, p, right, k - 1);
      DeniedAbove(d, s, p, right);
    }
  }

  lemma DeniedSome(db: Database, s: Id, p: Id, right: Right, k: nat)
    requires DeniedAt(db, s, p, right, k)
    ensures Denies(db, s, p, right)
  {
  }

  lemma {:induction false} DropDenies(db: Database, x: Id, s: Id, p: Id, right: Right, k: nat)
    requires Forest(db.scopes) && !ScopeOps.HasChild(db.scopes, x) && s in db.scopes && s != x && DeniedAt(db, s, p, right, k)
    ensures Denies(ScopeOps.Dropped(db, x), s, p, right)
    decreases k
  {
    var d := ScopeOps.Dropped(db, x);
    hide Denies;
    if k == 0 { DeniedHere(d, s, p, right); }
    else {
      assert db.scopes[s].parent.value != x;
      DropDenies(db, x, db.scopes[s].parent.value, p, right, k - 1);
      DeniedAbove(d, s, p, right);
    }
  }

  /** The scopes and policies after a merge. */
  ghost function MergedInto(db: Database, source: Id, target: Id): Database
    requires source in db.scopes && Chain(db.scopes, source).Ok?
  {
    var retained := ScopeOps.Retained(db.policies, db.scopes[source].org, Chain(db.scopes, source).value, target);
    db.(policies := map k | k in retained && k.0 != source :: retained[k],
        scopes := MergedScopes(db.scopes, source, target))
  }

  lemma {:induction false} MergeDenies(db: Database, source: Id, target: Id, s: Id, p: Id, right: Right, k: nat)
    requires Forest(db.scopes) && Placed(db) && source in db.scopes && target in db.scopes && source != target
    requires Chain(db.scopes, source).Ok?
    requires s in db.scopes && DeniedAt(db, s, p, right, k)
    ensures Denies(MergedInto(db, source, target), ScopeOps.Home(source, target, s), p, right)
    decreases k
  {
    hide Chain, ScopeOps.Retained, Placed, Denies;
    var d := MergedInto(db, source, target);
    if s == source {
      assert Denies(db, source, p, right) by { DeniedSome(db, source, p, right, k); }
      RetainedDenies(db, source, target, p, right);
      DeniedHere(d, target, p, right);
    } else if k == 0 {
      RetainedKeeps(db.policies, db.scopes[source].org, Chain(db.scopes, source).value, target, (s, p), right);
      DeniedHere(d, s, p, right);
    } else {
      MergeDenies(db, source, target, db.scopes[s].parent.value, p, right, k - 1);
      DeniedAbove(d, s, p, right);
    }
  }

  // ---------------------------------------------------------------- every operation

  /** Where the contents of a scope are after an operation. */
  function HomeAfter(op: ScopeOps.ScopeOp, s: Id): Id {
    if op.Merge? then ScopeOps.Home(op.source, op.target, s) else s
  }

  /** Two databases that agree on scopes and policies agree on denials. */
  lemma SameDenials(before: Database, after: Database, s: Id, p: Id, right: Right)
    requires after.scopes == before.scopes && after.policies == before.policies
    ensures Denies(after, s, p, right) <==> Denies(before, s, p, right)
  {
    forall k: nat ensures DeniedAt(after, s, p, right, k) <==> DeniedAt(before, s, p, right, k) {}
  }

  lemma MovedKeepsDenials(db: Database, a: Id, op: ScopeOps.ScopeOp, s: Id, p: Id, right: Right)
    requires Forest(db.scopes) && Placed(db) && a in db.principals && op.Move? && ScopeOps.Moved(db, a, op).Ok?
    requires s in db.scopes && Denies(db, s, p, right)
    ensures Denies(ScopeOps.Moved(db, a, op).value, s, p, right)
  {
    hide Chain, ScopeOps.Retained, Placed, RequireRole, ScopeOps.NameTaken;
    var k: nat :| DeniedAt(db, s, p, right, k);
    MoveDenies(db, op.scope, op.parent, s, p, right, k);
  }

  lemma DeletedKeepsDenials(cfg: Config, db: Database, a: Id, op: ScopeOps.ScopeOp, s: Id, p: Id, right: Right)
    requires Forest(db.scopes) && a in db.principals && op.DeleteScope? && ScopeOps.Deleted(cfg, db, a, op).Ok?
    requires s in db.scopes && Denies(db, s, p, right)
    ensures s == op.scope || Denies(ScopeOps.Deleted(cfg, db, a, op).value, s, p, right)
  {
    hide ScopeOps.Deleted, ScopeOps.Dropped, ScopeOps.HasChild, Denies, Forest;
    DeletedTables(cfg, db, a, op);
    if s != op.scope {
      var k := DenialDepth(db, s, p, right);
      DropDenies(db, op.scope, s, p, right, k);
      SameDenials(ScopeOps.Dropped(db, op.scope), ScopeOps.Deleted(cfg, db, a, op).value, s, p, right);
    }
  }

  /** A deletion removes a leaf, and changes the hierarchy like removing an empty scope does. */
  lemma DeletedTables(cfg: Config, db: Database, a: Id, op: ScopeOps.ScopeOp)
    requires a in db.principals && op.DeleteScope? && ScopeOps.Deleted(cfg, db, a, op).Ok?
    ensures var d, e := ScopeOps.Deleted(cfg, db, a, op).value, ScopeOps.Dropped(db, op.scope);
      d.scopes == e.scopes && d.policies == e.policies
    ensures op.scope in db.scopes && ScopeOps.Manageable(db.scopes[op.scope].kind) && !ScopeOps.HasChild(db.scopes, op.scope)
  {
    hide RequireRole, Permitted, ScopeOps.HasChild, ScopeOps.HasData, Meter.Recounted;
  }

  lemma DenialDepth(db: Database, s: Id, p: Id, right: Right) returns (k: nat)
    requires Denies(db, s, p, right)
    ensures DeniedAt(db, s, p, right, k)
  {
    k :| DeniedAt(db, s, p, right, k);
  }

  lemma MergedKeepsDenials(db: Database, a: Id, op: ScopeOps.ScopeOp, s: Id, p: Id, right: Right)
    requires Forest(db.scopes) && Placed(db) && a in db.principals && op.Merge? && ScopeOps.Merged(db, a, op).Ok?
    requires s in db.scopes && Denies(db, s, p, right)
    ensures Denies(ScopeOps.Merged(db, a, op).value, ScopeOps.Home(op.source, op.target, s), p, right)
  {
    hide Chain, ScopeOps.Retained, Placed, Permitted, Denies, ScopeOps.ChildNamesCollide, ScopeOps.JobsCollide,
         ScopeOps.MemoryKeys, ScopeOps.RehomedRecordKeys, ScopeOps.RehomedVersionKeys, ScopeOps.Adopted, ScopeOps.Home;
    var k := DenialDepth(db, s, p, right);
    MergeDenies(db, op.source, op.target, s, p, right, k);
    SameDenials(MergedInto(db, op.source, op.target), ScopeOps.Merged(db, a, op).value,
                ScopeOps.Home(op.source, op.target, s), p, right);
  }

  lemma CreatedGrows(db: Database, a: Id, op: ScopeOps.ScopeOp)
    requires Known(db) && a in db.principals && op.CreateScope? && ScopeOps.Created(db, a, op).Ok?
    ensures ScopesGrew(db.scopes, ScopeOps.Created(db, a, op).value.scopes)
  {
    hide RequireRole, ScopeOps.NameTaken;
  }

  lemma ScopeOpKeepsDenials(cfg: Config, db: Database, a: Id, op: ScopeOps.ScopeOp, s: Id, p: Id, right: Right)
    requires Forest(db.scopes) && Placed(db) && a in db.principals && ScopeOps.Performed(cfg, db, a, op).Ok?
    requires s in db.scopes && Denies(db, s, p, right) && !op.SetPolicy?
    ensures var d := ScopeOps.Performed(cfg, db, a, op).value;
      HomeAfter(op, s) in d.scopes ==> Denies(d, HomeAfter(op, s), p, right)
  {
    hide Denies, ScopeOps.Created, ScopeOps.OwnerSet, ScopeOps.Moved, ScopeOps.Deleted, ScopeOps.Merged, ScopeOps.Home,
         ScopeOps.PersonalEnsured, HasAccessPlaced, PayloadPlaced, Known, Forest;
    var d := ScopeOps.Performed(cfg, db, a, op).value;
    match op
    case CreateScope(_, _, _, _) => CreatedGrows(db, a, op); GrownDenies(db, d, s, p, right);
    case SetOwner(_, _) => SameDenials(db, d, s, p, right);
    case Move(_, _) => MovedKeepsDenials(db, a, op, s, p, right);
    case DeleteScope(_, _) =>
      DeletedKeepsDenials(cfg, db, a, op, s, p, right);
      DeletedScopeGone(cfg, db, a, op);
    case Merge(_, _) => MergedKeepsDenials(db, a, op, s, p, right);
    case OpenPersonal(id) => PersonalGrows(db, a, id); GrownDenies(db, d, s, p, right);
    case SetPolicy(_, _, _, _) =>
  }

  lemma DeletedScopeGone(cfg: Config, db: Database, a: Id, op: ScopeOps.ScopeOp)
    requires a in db.principals && op.DeleteScope? && ScopeOps.Deleted(cfg, db, a, op).Ok?
    ensures op.scope !in ScopeOps.Deleted(cfg, db, a, op).value.scopes
  {
    hide RequireRole, Permitted, ScopeOps.HasChild, ScopeOps.HasData, Meter.Recounted;
  }

  lemma PeopleOpKeepsDenials(cfg: Config, db: Database, a: Id, op: PeopleOps.PeopleOp, s: Id, p: Id, right: Right)
    requires Forest(db.scopes) && Placed(db) && a in db.principals && PeopleOps.Performed(cfg, db, a, op).Ok?
    requires s in db.scopes && Denies(db, s, p, right)
    ensures Denies(PeopleOps.Performed(cfg, db, a, op).value, s, p, right)
  {
    hide Denies, PeopleOps.Performed, HasAccessPlaced, PayloadPlaced, Known, Forest;
    PeopleFrame(cfg, db, a, op);
    PeopleGrow(cfg, db, a, op);
    GrownDenies(db, PeopleOps.Performed(cfg, db, a, op).value, s, p, right);
  }

  lemma TenantKeepsDenials(db: Database, t: PeopleOps.Tenant, s: Id, p: Id, right: Right)
    requires Forest(db.scopes) && Placed(db) && PeopleOps.OrganisationCreated(db, t).Ok?
    requires s in db.scopes && Denies(db, s, p, right)
    ensures Denies(PeopleOps.OrganisationCreated(db, t).value, s, p, right)
  {
    hide Denies, PeopleOps.OrganisationCreated, HasAccessPlaced, PayloadPlaced, Known, Forest;
    TenantFrame(db, t);
    TenantGrows(db, t);
    GrownDenies(db, PeopleOps.OrganisationCreated(db, t).value, s, p, right);
  }

  // ---------------------------------------------------------------- every step

  predicate SetsPolicy(call: Call) {
    call.Dispatch? && call.op.OnScopes? && call.op.scopes.SetPolicy?
  }

  /** Where the contents of a scope are after a step; only a committed merge moves any. */
  ghost function StepHome(cfg: Config, db: Database, call: Call, s: Id): Id {
    if call.Dispatch? && call.op.OnScopes? && Dispatched(cfg, db, call.who, call.op).Ok?
    then HomeAfter(call.op.scopes, s) else s
  }

  lemma DispatchKeepsDenials(cfg: Config, db: Database, who: Identity, op: Op, s: Id, p: Id, right: Right)
    requires Forest(db.scopes) && Placed(db) && Dispatched(cfg, db, who, op).Ok? && !SetsPolicy(Dispatch(who, op))
    requires s in db.scopes && Denies(db, s, p, right)
    ensures var d := Dispatched(cfg, db, who, op).value; var h := StepHome(cfg, db, Dispatch(who, op), s);
      h in d.scopes ==> Denies(d, h, p, right)
  {
    hide Denies, HasAccessPlaced, PayloadPlaced, Forest, ScopeOps.Performed, PeopleOps.Performed, MemoryOps.Performed,
         JobOps.Performed, SlotOps.Performed, HomeAfter;
    var d := Dispatched(cfg, db, who, op).value;
    match op
    case OnScopes(o) => ScopeOpKeepsDenials(cfg, db, who.id, o, s, p, right);
    case OnPeople(o) => PeopleOpKeepsDenials(cfg, db, who.id, o, s, p, right);
    case OnMemory(o) => MemoryFrame(cfg, db, who.id, o); SameDenials(db, d, s, p, right);
    case OnJobs(o) => JobFrame(cfg, db, who.id, o); SameDenials(db, d, s, p, right);
    case OnSlots(o) => SlotFrame(cfg, db, who.id, o); SameDenials(db, d, s, p, right);
  }

  /** No step but a policy change loosens a denial on contents that stay. */
  lemma StepKeepsDenials(cfg: Config, db: Database, call: Call, s: Id, p: Id, right: Right)
    requires Forest(db.scopes) && Placed(db) && !SetsPolicy(call)
    requires s in db.scopes && Denies(db, s, p, right)
    ensures var d := Step(cfg, db, call); var h := StepHome(cfg, db, call, s);
      h in d.scopes ==> Denies(d, h, p, right)
  {
    hide Denies, Placed, Forest, Dispatched, PeopleOps.OrganisationCreated, HomeAfter;
    var d := Step(cfg, db, call);
    match call
    case Dispatch(who, op) => if Dispatched(cfg, db, who, op).Ok? { DispatchKeepsDenials(cfg, db, who, op, s, p, right); }
    case NewOrganisation(t) => if PeopleOps.OrganisationCreated(db, t).Ok? { TenantKeepsDenials(db, t, s, p, right); }
    case Recalculate(_) => SameDenials(db, d, s, p, right);
    case BillingAuthority(_) => SameDenials(db, d, s, p, right);
  }
}
