/** Every reachable scope table is a forest, and the cycle tests of move and merge are exact. */
module ForestProofs {
  import opened Base
  import opened Tables
  import opened ScopeTree
  import ScopeOps
  import PeopleOps
  import MemoryOps
  import JobOps
  import SlotOps
  import opened Workspace

  // ---------------------------------------------------------------- walks that do not meet a change

  /** Every scope that the walk from `y` meets within `k` steps keeps its parent. */
  ghost predicate KeptAlong(before: Scopes, after: Scopes, y: Id, k: nat) {
    forall j: nat :: j <= k && Up(before, y, j).Some? ==>
      var z := Up(before, y, j).value;
      z in after && after[z].parent == before[z].parent
  }

  lemma {:induction false} UpAlong(before: Scopes, after: Scopes, y: Id, k: nat)
    requires y in before && ParentsHome(before)
    requires KeptAlong(before, after, y, k)
    ensures Up(after, y, k) == Up(before, y, k)
    decreases k
  {
    assert Up(before, y, 0) == Some(y);
    if k > 0 && before[y].parent.Some? {
      var up := before[y].parent.value;
      forall j: nat | j <= k - 1 && Up(before, up, j).Some?
        ensures Up(before, up, j).value in after && after[Up(before, up, j).value].parent == before[Up(before, up, j).value].parent
      {
        assert Up(before, y, j + 1) == Up(before, up, j);
      }
      UpAlong(before, after, up, k - 1);
    }
  }

  /** A table that keeps all parents keeps all walks. */
  lemma UpKept(before: Scopes, after: Scopes, y: Id, k: nat)
    requires y in before && ParentsHome(before)
    requires forall z :: z in before ==> z in after && after[z].parent == before[z].parent
    ensures Up(after, y, k) == Up(before, y, k)
  {
    UpAlong(before, after, y, k);
  }

  lemma RootedBelow(scopes: Scopes, y: Id)
    requires y in scopes && scopes[y].parent.Some? && Rooted(scopes, scopes[y].parent.value)
    ensures Rooted(scopes, y)
  {
    var k: nat :| Up(scopes, scopes[y].parent.value, k) == None;
    assert Up(scopes, y, k + 1) == None;
  }

  // ---------------------------------------------------------------- a new scope

  lemma Added(scopes: Scopes, id: Id, row: Scope)
    requires Forest(scopes) && id !in scopes
    requires row.parent.Some? ==> row.parent.value in scopes
    requires WellPlaced(scopes[id := row], id)
    ensures Forest(scopes[id := row])
  {
    var after := scopes[id := row];
    forall s | s in after ensures WellPlaced(after, s) && Rooted(after, s) {
      if s != id { KeepsRoot(scopes, after, s); }
      else if row.parent.Some? { KeepsRoot(scopes, after, row.parent.value); RootedBelow(after, id); }
      else { assert Up(after, id, 1) == None; }
    }
  }

  lemma KeepsRoot(before: Scopes, after: Scopes, s: Id)
    requires Forest(before) && s in before
    requires forall z :: z in before ==> z in after && after[z].parent == before[z].parent
    ensures Rooted(after, s)
  {
    var k: nat :| Up(before, s, k) == None;
    UpKept(before, after, s, k);
  }

  // ---------------------------------------------------------------- a move

  function Reparented(scopes: Scopes, x: Id, parent: Id): Scopes
    requires x in scopes
  {
    scopes[x := scopes[x].(parent := Some(parent))]
  }

  lemma {:induction false} MoveRooted(scopes: Scopes, x: Id, parent: Id, s: Id, k: nat)
    requires Forest(scopes) && x in scopes && s in scopes
    requires Rooted(Reparented(scopes, x, parent), parent)
    requires Up(scopes, s, k) == None
    ensures Rooted(Reparented(scopes, x, parent), s)
    decreases k
  {
    var after := Reparented(scopes, x, parent);
    if s == x { RootedBelow(after, x); }
    else if scopes[s].parent.Some? {
      MoveRooted(scopes, x, parent, scopes[s].parent.value, k - 1);
      RootedBelow(after, s);
    } else { assert Up(after, s, 1) == None; }
  }

  /** While the walk has not met `x`, moving `x` does not change it. */
  lemma {:induction false} MoveReaches(scopes: Scopes, x: Id, parent: Id, y: Id, k: nat)
    requires ParentsHome(scopes) && x in scopes && y in scopes
    requires Up(scopes, y, k) == Some(x)
    ensures Ancestor(Reparented(scopes, x, parent), y, x)
    decreases k
  {
    var after := Reparented(scopes, x, parent);
    if y == x { assert Up(after, x, 0) == Some(x); }
    else {
      MoveReaches(scopes, x, parent, scopes[y].parent.value, k - 1);
      var j: nat :| Up(after, scopes[y].parent.value, j) == Some(x);
      assert Up(after, y, j + 1) == Some(x);
    }
  }

  /** Hanging `x` below `parent` keeps a forest exactly when `x` is not an ancestor of `parent`. */
  lemma MoveTestExact(scopes: Scopes, x: Id, parent: Id)
    requires Forest(scopes) && x in scopes && parent in scopes
    requires scopes[x].org == scopes[parent].org
    requires ScopeOps.Manageable(scopes[x].kind)
    requires scopes[parent].kind == Organisation || scopes[parent].kind == Department
    ensures Forest(Reparented(scopes, x, parent)) <==> !Ancestor(scopes, parent, x)
  {
    var after := Reparented(scopes, x, parent);
    if Ancestor(scopes, parent, x) {
      var k: nat :| Up(scopes, parent, k) == Some(x);
      MoveReaches(scopes, x, parent, parent, k);
      var j: nat :| Up(after, parent, j) == Some(x);
      assert Up(after, x, j + 1) == Some(x);
      if Forest(after) { Acyclic(after, x, j + 1); }
    } else {
      var k: nat :| Up(scopes, parent, k) == None;
      UpAlong(scopes, after, parent, k);
      forall s | s in after ensures WellPlaced(after, s) && Rooted(after, s) {
        var n: nat :| Up(scopes, s, n) == None;
        MoveRooted(scopes, x, parent, s, n);
      }
    }
  }

  // ---------------------------------------------------------------- a deletion

  lemma LeafRemoved(scopes: Scopes, x: Id)
    requires Forest(scopes) && !ScopeOps.HasChild(scopes, x)
    ensures Forest(scopes - {x})
  {
    var after := scopes - {x};
    forall s | s in after ensures WellPlaced(after, s) && Rooted(after, s) {
      assert scopes[s].parent.Some? ==> scopes[s].parent.value != x;
      var k: nat :| Up(scopes, s, k) == None;
      AvoidsLeaf(scopes, x, s, k);
    }
  }

  lemma {:induction false} AvoidsLeaf(scopes: Scopes, x: Id, s: Id, k: nat)
    requires Forest(scopes) && !ScopeOps.HasChild(scopes, x) && s in scopes && s != x
    ensures Up(scopes - {x}, s, k) == Up(scopes, s, k)
    decreases k
  {
    if k > 0 && scopes[s].parent.Some? {
      assert scopes[s].parent.value != x;
      AvoidsLeaf(scopes, x, scopes[s].parent.value, k - 1);
    }
  }

  // ---------------------------------------------------------------- a merge

  /** The scope table after `target` adopted the children of `source` and `source` was removed. */
  function MergedScopes(scopes: Scopes, source: Id, target: Id): Scopes {
    ScopeOps.Adopted(scopes, source, target) - {source}
  }

  lemma {:induction false} MergeRooted(scopes: Scopes, source: Id, target: Id, s: Id, k: nat)
    requires Forest(scopes) && target in scopes && source != target && s in scopes && s != source
    requires Rooted(MergedScopes(scopes, source, target), target)
    requires Up(scopes, s, k) == None
    ensures Rooted(MergedScopes(scopes, source, target), s)
    decreases k
  {
    var after := MergedScopes(scopes, source, target);
    if scopes[s].parent == Some(source) { RootedBelow(after, s); }
    else if scopes[s].parent.Some? {
      MergeRooted(scopes, source, target, scopes[s].parent.value, k - 1);
      RootedBelow(after, s);
    } else { assert Up(after, s, 1) == None; }
  }

  lemma {:induction false} MergeReaches(scopes: Scopes, source: Id, target: Id, y: Id, k: nat)
    requires ParentsHome(scopes) && y in scopes && y != source && source != target && target in scopes
    requires Up(scopes, y, k) == Some(source)
    ensures exists j: nat :: j > 0 && Up(MergedScopes(scopes, source, target), y, j) == Some(target)
    decreases k
  {
    var after := MergedScopes(scopes, source, target);
    var up := scopes[y].parent.value;
    if up == source {
      assert Up(after, target, 0) == Some(target);
      assert Up(after, y, 1) == Some(target);
    } else {
      MergeReaches(scopes, source, target, up, k - 1);
      var j: nat :| j > 0 && Up(after, up, j) == Some(target);
      assert Up(after, y, j + 1) == Some(target);
    }
  }

  /** Merging keeps a forest exactly when `source` is not an ancestor of `target`. */
  lemma MergeTestExact(scopes: Scopes, source: Id, target: Id)
    requires Forest(scopes) && source in scopes && target in scopes && source != target
    requires scopes[source].kind == Department && scopes[target].kind == Department
    requires scopes[source].org == scopes[target].org
    ensures Forest(MergedScopes(scopes, source, target)) <==> !Ancestor(scopes, target, source)
  {
    var after := MergedScopes(scopes, source, target);
    if Ancestor(scopes, target, source) {
      var k: nat :| Up(scopes, target, k) == Some(source);
      MergeReaches(scopes, source, target, target, k);
      var j: nat :| j > 0 && Up(after, target, j) == Some(target);
      if Forest(after) { Acyclic(after, target, j); }
    } else {
      var k: nat :| Up(scopes, target, k) == None;
      forall j: nat | j <= k && Up(scopes, target, j).Some?
        ensures var z := Up(scopes, target, j).value; z in after && after[z].parent == scopes[z].parent
      {
        var z := Up(scopes, target, j).value;
        UpAdds(scopes, target, j, 1);
        assert Up(scopes, z, 1) == if scopes[z].parent.None? then None else scopes[z].parent;
        assert Up(scopes, target, j + 1) != Some(source);
      }
      UpAlong(scopes, after, target, k);
      forall s | s in after ensures WellPlaced(after, s) && Rooted(after, s) {
        var n: nat :| Up(scopes, s, n) == None;
        MergeRooted(scopes, source, target, s, n);
      }
    }
  }

  // ---------------------------------------------------------------- every step

  lemma CreatedKeeps(db: Database, a: Id, op: ScopeOps.ScopeOp)
    requires Forest(db.scopes) && db.scopes.Keys <= db.used
    requires a in db.principals && op.CreateScope? && ScopeOps.Created(db, a, op).Ok?
    ensures Forest(ScopeOps.Created(db, a, op).value.scopes)
  {
    Added(db.scopes, op.id, Scope(db.principals[a].org, Some(op.parent), op.name, op.kind));
  }

  lemma PersonalKeeps(db: Database, p: Id, id: Id)
    requires Forest(db.scopes) && db.scopes.Keys <= db.used
    requires p in db.principals && ScopeOps.PersonalEnsured(db, p, id).Ok?
    ensures Forest(ScopeOps.PersonalEnsured(db, p, id).value.scopes)
  {
    hide ScopeOps.HasPersonal;
    if !ScopeOps.HasPersonal(db, p) {
      Added(db.scopes, id, Scope(db.principals[p].org, None, "Personal memory", Personal));
    }
  }

  lemma MovedKeeps(db: Database, a: Id, op: ScopeOps.ScopeOp)
    requires Forest(db.scopes)
    requires a in db.principals && op.Move? && ScopeOps.Moved(db, a, op).Ok?
    ensures Forest(ScopeOps.Moved(db, a, op).value.scopes)
  {
    ChainIsAncestors(db.scopes, op.parent);
    MoveTestExact(db.scopes, op.scope, op.parent);
  }

  lemma DeletedKeeps(cfg: Config, db: Database, a: Id, op: ScopeOps.ScopeOp)
    requires Forest(db.scopes)
    requires a in db.principals && op.DeleteScope? && ScopeOps.Deleted(cfg, db, a, op).Ok?
    ensures Forest(ScopeOps.Deleted(cfg, db, a, op).value.scopes)
  {
    LeafRemoved(db.scopes, op.scope);
  }

  lemma MergedKeeps(db: Database, a: Id, op: ScopeOps.ScopeOp)
    requires Forest(db.scopes)
    requires a in db.principals && op.Merge? && ScopeOps.Merged(db, a, op).Ok?
    ensures Forest(ScopeOps.Merged(db, a, op).value.scopes)
  {
    ChainIsAncestors(db.scopes, op.target);
    MergeTestExact(db.scopes, op.source, op.target);
  }

  lemma ScopeOpKeeps(cfg: Config, db: Database, a: Id, op: ScopeOps.ScopeOp)
    requires Forest(db.scopes) && db.scopes.Keys <= db.used
    requires a in db.principals && ScopeOps.Performed(cfg, db, a, op).Ok?
    ensures Forest(ScopeOps.Performed(cfg, db, a, op).value.scopes)
  {
    match op
    case CreateScope(_, _, _, _) => CreatedKeeps(db, a, op);
    case SetPolicy(_, _, _, _) =>
    case SetOwner(_, _) =>
    case Move(_, _) => MovedKeeps(db, a, op);
    case DeleteScope(_, _) => DeletedKeeps(cfg, db, a, op);
    case Merge(_, _) => MergedKeeps(db, a, op);
    case OpenPersonal(id) => PersonalKeeps(db, a, id);
  }

  lemma PeopleOpKeeps(cfg: Config, db: Database, a: Id, op: PeopleOps.PeopleOp)
    requires Forest(db.scopes) && db.scopes.Keys <= db.used
    requires a in db.principals && PeopleOps.Performed(cfg, db, a, op).Ok?
    ensures Forest(PeopleOps.Performed(cfg, db, a, op).value.scopes)
  {
    if op.CreatePrincipal? {
      var row := Principal(db.principals[a].org, op.name, op.digest, false, true, op.now);
      var d := PeopleOps.Performed(cfg, db, a, op).value;
      var before := db.(used := db.used + {op.id}, principals := db.principals[op.id := row], usage := d.usage);
      assert ScopeOps.PersonalEnsured(before, op.id, op.personal).Ok?
        && ScopeOps.PersonalEnsured(before, op.id, op.personal).value == d;
      PersonalKeeps(before, op.id, op.personal);
    }
  }

  lemma TenantKeeps(db: Database, t: PeopleOps.Tenant)
    requires Forest(db.scopes) && db.scopes.Keys <= db.used
    requires PeopleOps.OrganisationCreated(db, t).Ok?
    ensures Forest(PeopleOps.OrganisationCreated(db, t).value.scopes)
  {
    Added(db.scopes, t.root, Scope(t.org, None, t.name, Organisation));
    var before := db.(used := db.used + {t.org, t.root, t.admin},
                      orgs := db.orgs[t.org := t.name],
                      scopes := db.scopes[t.root := Scope(t.org, None, t.name, Organisation)],
                      principals := db.principals[t.admin := Principal(t.org, t.adminName, t.digest, true, true, t.now)]);
    PersonalKeeps(before, t.admin, t.personal);
  }

  /** Every step keeps the forest. */
  lemma StepKeepsForest(cfg: Config, db: Database, call: Call)
    requires Forest(db.scopes) && db.scopes.Keys <= db.used
    ensures Forest(Step(cfg, db, call).scopes)
  {
    hide ScopeOps.Performed, PeopleOps.Performed, MemoryOps.Performed, JobOps.Performed, SlotOps.Performed;
    match call
    case Dispatch(who, op) =>
      if Dispatched(cfg, db, who, op).Ok? {
        match op
        case OnScopes(o) => ScopeOpKeeps(cfg, db, who.id, o);
        case OnPeople(o) => PeopleOpKeeps(cfg, db, who.id, o);
        case OnMemory(o) => MemoryFrame(cfg, db, who.id, o);
        case OnJobs(o) => JobFrame(cfg, db, who.id, o);
        case OnSlots(o) => SlotFrame(cfg, db, who.id, o);
      }
    case NewOrganisation(t) => if PeopleOps.OrganisationCreated(db, t).Ok? { TenantKeeps(db, t); }
    case Recalculate(_) =>
    case BillingAuthority(_) =>
  }
}
