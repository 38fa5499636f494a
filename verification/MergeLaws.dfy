/** Exactly when two departments merge, and what the hierarchy, the roles and the denials are afterwards
    (distributedai/persistence/workspace.py). */
module MergeLaws {
  import opened Base
  import opened Tables
  import opened ScopeTree
  import opened PlacementProofs
  import opened ForestProofs
  import opened LedgerMergeProofs
  import opened DenialProofs
  import opened AuthorityProofs
  import opened ScopeLaws
  import ScopeOps

  // ---------------------------------------------------------------- when

  /** Some row of the scope's memory tables or locks has the key. */
  ghost predicate Mentions(db: Database, s: Id, key: string) {
    || (s, key) in db.records
    || (exists n :: (s, key, n) in db.versions)
    || (exists i :: i in db.proposals && db.proposals[i].scope == s && db.proposals[i].key == key)
    || (s, key) in db.locks
  }

  lemma MentionsKey(db: Database, s: Id, key: string)
    ensures Mentions(db, s, key) <==> key in ScopeOps.MemoryKeys(db, s)
  {
    forall n | (s, key, n) in db.versions ensures key in ScopeOps.MemoryKeys(db, s) { assert (s, key, n).1 == key; }
    forall k | k in db.versions && k.0 == s && k.1 == key ensures Mentions(db, s, key) { assert k == (s, key, k.2); }
    forall k | k in db.records && k.0 == s && k.1 == key ensures Mentions(db, s, key) { assert k == (s, key); }
    forall l | l in db.locks && l.0 == s && l.1 == key ensures Mentions(db, s, key) { assert l == (s, key); }
    if (s, key) in db.records { assert (s, key).1 == key; }
    if (s, key) in db.locks { assert (s, key).1 == key; }
  }

  /** Some key is in the memory of both scopes. */
  ghost predicate KeysMeet(db: Database, s: Id, t: Id) {
    exists key :: Mentions(db, s, key) && Mentions(db, t, key)
  }

  /** A child of one scope has the name of a child of the other, be it the first scope itself. */
  ghost predicate NamesMeet(scopes: Scopes, s: Id, t: Id) {
    exists c, e :: c in scopes && e in scopes && scopes[c].parent == Some(s) && scopes[e].parent == Some(t)
      && scopes[c].name == scopes[e].name
  }

  /** A job of one scope has creator and idempotency key of a job of the other. */
  ghost predicate JobsMeet(jobs: map<Id, Job>, s: Id, t: Id) {
    exists i, j :: i in jobs && j in jobs && jobs[i].scope == s && jobs[j].scope == t
      && jobs[i].creator == jobs[j].creator && jobs[i].idempotency == jobs[j].idempotency
  }

  lemma JobsCollideExactly(jobs: map<Id, Job>, s: Id, t: Id)
    ensures ScopeOps.JobsCollide(jobs, s, t) <==> JobsMeet(jobs, s, t)
  {
  }

  lemma NamesCollide(scopes: Scopes, s: Id, t: Id)
    ensures ScopeOps.ChildNamesCollide(scopes, s, t, {}) <==> NamesMeet(scopes, s, t)
    ensures ScopeOps.ChildNamesCollide(scopes, s, t, {s}) ==> NamesMeet(scopes, s, t)
  {
    if c, e :| c in scopes && e in scopes && scopes[c].parent == Some(s) && scopes[e].parent == Some(t) && scopes[c].name == scopes[e].name {
      assert ScopeOps.NameTaken(scopes, t, scopes[c].name, {});
    }
  }

  lemma KeysApartExactly(db: Database, s: Id, t: Id)
    ensures (ScopeOps.MemoryKeys(db, s) !! ScopeOps.MemoryKeys(db, t)) <==> !KeysMeet(db, s, t)
  {
    hide ScopeOps.MemoryKeys, Mentions;
    forall key ensures Mentions(db, s, key) <==> key in ScopeOps.MemoryKeys(db, s) { MentionsKey(db, s, key); }
    forall key ensures Mentions(db, t, key) <==> key in ScopeOps.MemoryKeys(db, t) { MentionsKey(db, t, key); }
  }

  predicate IsDepartment(db: Database, s: Id, org: Id) {
    s in db.scopes && db.scopes[s].org == org && db.scopes[s].kind == Department
  }

  /** Exactly an administrator from whom no policy withholds the deletion of the source merges it into
      another department that is not below it, while both walks end and neither names of children, nor
      memory keys, nor idempotency keys of jobs meet. */
  lemma MergesExactly(db: Database, a: Id, op: ScopeOps.ScopeOp)
    requires Forest(db.scopes) && Placed(db) && a in db.principals && op.Merge?
    ensures ScopeOps.Merged(db, a, op).Ok? <==>
      && db.principals[a].admin
      && IsDepartment(db, op.source, db.principals[a].org) && IsDepartment(db, op.target, db.principals[a].org)
      && op.source != op.target && !Ancestor(db.scopes, op.target, op.source)
      && Up(db.scopes, op.target, 100) == None && Up(db.scopes, op.source, 100) == None
      && !Withheld(db, a, op.source, Delete)
      && !NamesMeet(db.scopes, op.source, op.target) && !KeysMeet(db, op.source, op.target)
      && !JobsMeet(db.jobs, op.source, op.target)
  {
    hide Forest, Placed, Permitted, Chain, Ancestor, ScopeOps.Retained, ScopeOps.Rehomed, ScopeOps.Dropped, ScopeOps.Adopted, Withheld,
         ScopeOps.ChildNamesCollide, ScopeOps.MemoryKeys, ScopeOps.JobsCollide, NamesMeet, KeysMeet, JobsMeet;
    if op.source in db.scopes && op.target in db.scopes {
      ChainIsAncestors(db.scopes, op.source);
      ChainIsAncestors(db.scopes, op.target);
      RightExactly(db, a, op.source, Delete);
    }
    NamesCollide(db.scopes, op.source, op.target);
    KeysApartExactly(db, op.source, op.target);
    JobsCollideExactly(db.jobs, op.source, op.target);
  }

  lemma MergedTree(db: Database, a: Id, op: ScopeOps.ScopeOp)
    requires Forest(db.scopes) && a in db.principals && op.Merge? && ScopeOps.Merged(db, a, op).Ok?
    ensures op.source in db.scopes && op.target in db.scopes && op.source != op.target && !Ancestor(db.scopes, op.target, op.source)
    ensures Chain(db.scopes, op.source).Ok? && db.scopes[op.source].org == db.principals[a].org
    ensures var d := ScopeOps.Merged(db, a, op).value; var m := MergedInto(db, op.source, op.target);
      d.scopes == m.scopes && d.policies == m.policies
  {
    hide Forest, Permitted, Chain, Ancestor, ScopeOps.Retained, ScopeOps.RehomedRecordKeys, ScopeOps.RehomedVersionKeys, ScopeOps.Adopted,
         ScopeOps.ChildNamesCollide, ScopeOps.MemoryKeys, ScopeOps.JobsCollide;
    ChainIsAncestors(db.scopes, op.target);
  }

  // ---------------------------------------------------------------- the tables

  /** The source is gone, its children hang below the target, and no other scope, owner or grant changed. */
  lemma MergeMoves(db: Database, a: Id, op: ScopeOps.ScopeOp)
    requires a in db.principals && op.Merge? && ScopeOps.Merged(db, a, op).Ok?
    ensures var d := ScopeOps.Merged(db, a, op).value;
      && d.scopes.Keys == db.scopes.Keys - {op.source}
      && (forall s :: s in d.scopes ==>
            d.scopes[s] == if db.scopes[s].parent == Some(op.source) then db.scopes[s].(parent := Some(op.target)) else db.scopes[s])
      && d.owners == db.owners - {op.source}
      && (forall k :: k in d.grants <==> k in db.grants && k.1 != op.source)
      && (forall k :: k in d.grants ==> d.grants[k] == db.grants[k])
      && d.principals == db.principals && d.usage == db.usage && d.accounts == db.accounts
  {
    hide Permitted, Chain, ScopeOps.Retained, ScopeOps.RehomedRecordKeys, ScopeOps.RehomedVersionKeys,
         ScopeOps.ChildNamesCollide, ScopeOps.MemoryKeys, ScopeOps.JobsCollide;
  }

  /** Every canonical record and every version is found under its home, with its value, and nothing else is there. */
  lemma MergeKeepsMemory(db: Database, a: Id, op: ScopeOps.ScopeOp, k: (Id, string), v: (Id, string, nat))
    requires a in db.principals && op.Merge? && ScopeOps.Merged(db, a, op).Ok?
    ensures var d := ScopeOps.Merged(db, a, op).value;
      && (k in d.records <==> exists q :: q in db.records && k == (if q.0 == op.source then op.target else q.0, q.1))
      && (k in db.records ==>
            var h := (if k.0 == op.source then op.target else k.0, k.1); h in d.records && d.records[h] == db.records[k])
      && (v in d.versions <==> exists q :: q in db.versions && v == (if q.0 == op.source then op.target else q.0, q.1, q.2))
      && (v in db.versions ==>
            var h := (if v.0 == op.source then op.target else v.0, v.1, v.2); h in d.versions && d.versions[h] == db.versions[v])
  {
    hide Permitted, Chain, ScopeOps.Retained, ScopeOps.Rehomed, ScopeOps.Adopted, ScopeOps.ChildNamesCollide, ScopeOps.MemoryKeys,
         ScopeOps.JobsCollide;
    var adopted := db.(policies := ScopeOps.Retained(db.policies, db.principals[a].org, Chain(db.scopes, op.source).value, op.target),
                       scopes := ScopeOps.Adopted(db.scopes, op.source, op.target));
    SameKeys(db, adopted, op.source);
    SameKeys(db, adopted, op.target);
    if k in db.records { RecordForward(adopted, op.source, op.target, k); }
    if v in db.versions { VersionForward(adopted, op.source, op.target, v); }
    RehomedKeys(adopted, op.source, op.target, k, v);
  }

  /** No proposal, message or job appears, vanishes or changes but for its scope. */
  lemma MergeKeepsRows(db: Database, a: Id, op: ScopeOps.ScopeOp, i: Id)
    requires a in db.principals && op.Merge? && ScopeOps.Merged(db, a, op).Ok?
    ensures var d := ScopeOps.Merged(db, a, op).value;
      && (i in d.proposals <==> i in db.proposals)
      && (i in db.proposals ==> d.proposals[i] == db.proposals[i].(scope := if db.proposals[i].scope == op.source then op.target else db.proposals[i].scope))
      && (i in d.messages <==> i in db.messages)
      && (i in db.messages ==> d.messages[i] == db.messages[i].(scope := if db.messages[i].scope == op.source then op.target else db.messages[i].scope))
      && (i in d.jobs <==> i in db.jobs)
      && (i in db.jobs ==> d.jobs[i] == db.jobs[i].(scope := if db.jobs[i].scope == op.source then op.target else db.jobs[i].scope))
  {
    hide Permitted, Chain, ScopeOps.Retained, ScopeOps.Adopted, ScopeOps.RehomedRecordKeys, ScopeOps.RehomedVersionKeys,
         ScopeOps.ChildNamesCollide, ScopeOps.MemoryKeys, ScopeOps.JobsCollide;
  }

  lemma RehomedKeys(db: Database, source: Id, target: Id, k: (Id, string), v: (Id, string, nat))
    ensures k in ScopeOps.Rehomed(db, source, target).records
       <==> exists q :: q in db.records && k == (ScopeOps.Home(source, target, q.0), q.1)
    ensures v in ScopeOps.Rehomed(db, source, target).versions
       <==> exists q :: q in db.versions && v == (ScopeOps.Home(source, target, q.0), q.1, q.2)
  {
  }

  // ---------------------------------------------------------------- ancestors

  /** No child of the source is on the way up from the target. */
  lemma TargetWalk(scopes: Scopes, source: Id, target: Id)
    requires Forest(scopes) && source in scopes && target in scopes && source != target && !Ancestor(scopes, target, source)
    ensures var after := MergedScopes(scopes, source, target);
      forall z :: Ancestor(scopes, target, z) ==> z in after && z in scopes && after[z].parent == scopes[z].parent
  {
    hide Ancestor, WellPlaced, Rooted;
    forall z | Ancestor(scopes, target, z) ensures z in scopes && z != source && scopes[z].parent != Some(source) {
      AncestorKnown(scopes, target, z);
      if scopes[z].parent == Some(source) {
        AncestorStep(scopes, z, source);
        NothingAbove(scopes, source);
        AncestorTrans(scopes, target, z, source);
      }
    }
  }

  /** Below the source the new ancestors are those below the source and those of the target; elsewhere nothing changes. */
  lemma {:induction false} MergedAncestors(scopes: Scopes, source: Id, target: Id, t: Id, u: Id, depth: nat)
    requires Forest(scopes) && source in scopes && target in scopes && source != target && !Ancestor(scopes, target, source)
    requires t in scopes && t != source && Up(scopes, t, depth) == None
    ensures Ancestor(MergedScopes(scopes, source, target), t, u) <==>
      if Ancestor(scopes, t, source) then (Ancestor(scopes, t, u) && Ancestor(scopes, u, source) && u != source) || Ancestor(scopes, target, u)
      else Ancestor(scopes, t, u)
    decreases depth
  {
    hide Ancestor, WellPlaced, Rooted;
    var after := MergedScopes(scopes, source, target);
    AncestorStep(after, t, u);
    AncestorStep(scopes, t, u);
    AncestorStep(scopes, t, source);
    NothingAbove(scopes, t);
    if scopes[t].parent == Some(source) {
      TargetWalk(scopes, source, target);
      SameAncestors(scopes, after, target, u);
      NothingAbove(scopes, source);
      OnlyItself(scopes, source, u);
    } else if scopes[t].parent.Some? {
      ParentKnown(scopes, t);
      MergedAncestors(scopes, source, target, scopes[t].parent.value, u, depth - 1);
    }
  }

  lemma MergeAncestors(db: Database, a: Id, op: ScopeOps.ScopeOp, t: Id, u: Id)
    requires Forest(db.scopes) && a in db.principals && op.Merge? && ScopeOps.Merged(db, a, op).Ok? && t in db.scopes && t != op.source
    ensures Ancestor(ScopeOps.Merged(db, a, op).value.scopes, t, u) <==>
      if Ancestor(db.scopes, t, op.source)
      then (Ancestor(db.scopes, t, u) && Ancestor(db.scopes, u, op.source) && u != op.source) || Ancestor(db.scopes, op.target, u)
      else Ancestor(db.scopes, t, u)
  {
    hide Ancestor, ScopeOps.Merged, WellPlaced, Chain, ScopeOps.Retained;
    MergedTree(db, a, op);
    assert Rooted(db.scopes, t);
    var k: nat :| Up(db.scopes, t, k) == None;
    MergedAncestors(db.scopes, op.source, op.target, t, u, k);
  }

  // ---------------------------------------------------------------- roles and denials

  /** Roles after a merge: grants on the source are gone and those at or above the target reach what was below
      the source; owners and administrators are what they were. */
  lemma MergeRoles(db: Database, a: Id, op: ScopeOps.ScopeOp, t: Id, p: Id, minimum: Role)
    requires Forest(db.scopes) && Placed(db) && a in db.principals && op.Merge? && ScopeOps.Merged(db, a, op).Ok?
    requires p in db.principals && t in db.scopes && t != op.source
    ensures t in ScopeOps.Merged(db, a, op).value.scopes && p in ScopeOps.Merged(db, a, op).value.principals
    ensures var d := ScopeOps.Merged(db, a, op).value;
      RequireRole(d, p, t, minimum).Pass? <==>
        && db.scopes[t].org == db.principals[p].org
        && (|| OwnerOf(db, p, t)
            || (db.scopes[t].kind != Personal && db.principals[p].admin)
            || (db.scopes[t].kind != Personal && Up(d.scopes, t, 100) == None
                && exists b :: Ancestor(d.scopes, t, b) && b != op.source && (p, b) in db.grants && Meets(db.grants[(p, b)].role, minimum)))
  {
    hide Forest, Placed, ScopeOps.Merged, RequireRole, Ancestor;
    var d := ScopeOps.Merged(db, a, op).value;
    MergeMoves(db, a, op);
    MergedPlaced(db, a, op);
    MergedKeeps(db, a, op);
    RequireExactly(d, p, t, minimum);
    forall b | Ancestor(d.scopes, t, b) ensures b != op.source { AncestorKnown(d.scopes, t, b); }
  }

  /** A merge gives no right back and withholds only what either side withheld: the target and everything
      below it is denied what source or target denied, and what was below the source also what the target did. */
  lemma MergeWithholds(db: Database, a: Id, op: ScopeOps.ScopeOp, t: Id, p: Id, right: Right)
    requires Forest(db.scopes) && Placed(db) && a in db.principals && op.Merge? && ScopeOps.Merged(db, a, op).Ok?
    requires t in db.scopes && t != op.source
    ensures Withheld(ScopeOps.Merged(db, a, op).value, p, t, right) <==>
      || Withheld(db, p, t, right)
      || (Ancestor(db.scopes, t, op.source) && Withheld(db, p, op.target, right))
      || (Ancestor(db.scopes, t, op.target) && Withheld(db, p, op.source, right))
  {
    hide Forest, Placed, Chain, Ancestor, Withheld, ScopeOps.Merged, ScopeOps.Retained, Lets;
    MergedTree(db, a, op);
    if Withheld(db, p, t, right) { MergeKeepsWithheld(db, a, op, t, p, right); }
    if Ancestor(db.scopes, t, op.source) && Withheld(db, p, op.target, right) { MergeReachesTarget(db, a, op, t, p, right); }
    if Ancestor(db.scopes, t, op.target) && Withheld(db, p, op.source, right) { MergeReachesSource(db, a, op, t, p, right); }
    if Withheld(ScopeOps.Merged(db, a, op).value, p, t, right) { MergeWithholdsNoMore(db, a, op, t, p, right); }
  }

  /** One row of the policies after a merge. */
  lemma MergedPolicy(db: Database, a: Id, op: ScopeOps.ScopeOp, b: Id, p: Id, right: Right)
    requires Forest(db.scopes) && Placed(db) && a in db.principals && op.Merge? && ScopeOps.Merged(db, a, op).Ok? && b != op.source
    ensures var after := ScopeOps.Merged(db, a, op).value.policies;
      ((b, p) in after && !Lets(after[(b, p)], right)) <==>
        || ((b, p) in db.policies && !Lets(db.policies[(b, p)], right))
        || (b == op.target && Withheld(db, p, op.source, right))
  {
    hide Forest, Placed, Chain, Withheld, ScopeOps.Merged, ScopeOps.Retained, Lets, MergedScopes;
    MergedTree(db, a, op);
    RetainedExactly(db, op.source, op.target, (b, p), right);
  }

  lemma MergeKeepsWithheld(db: Database, a: Id, op: ScopeOps.ScopeOp, t: Id, p: Id, right: Right)
    requires Forest(db.scopes) && Placed(db) && a in db.principals && op.Merge? && ScopeOps.Merged(db, a, op).Ok?
    requires t in db.scopes && t != op.source && Withheld(db, p, t, right)
    ensures Withheld(ScopeOps.Merged(db, a, op).value, p, t, right)
  {
    hide Forest, Placed, ScopeOps.Merged, Withheld, Denies;
    DeniesWithheld(db, p, t, right);
    DeniesWithheld(ScopeOps.Merged(db, a, op).value, p, t, right);
    MergedKeepsDenials(db, a, op, t, p, right);
  }

  lemma MergeReachesTarget(db: Database, a: Id, op: ScopeOps.ScopeOp, t: Id, p: Id, right: Right)
    requires Forest(db.scopes) && Placed(db) && a in db.principals && op.Merge? && ScopeOps.Merged(db, a, op).Ok?
    requires t in db.scopes && t != op.source && Ancestor(db.scopes, t, op.source) && Withheld(db, p, op.target, right)
    ensures Withheld(ScopeOps.Merged(db, a, op).value, p, t, right)
  {
    hide Forest, Placed, Chain, Ancestor, Withheld, ScopeOps.Merged, ScopeOps.Retained, Lets;
    MergedTree(db, a, op);
    var b := Withholder(db, p, op.target, right);
    MergeAncestors(db, a, op, t, b);
    MergedPolicy(db, a, op, b, p, right);
    WithheldBy(ScopeOps.Merged(db, a, op).value, p, t, right, b);
  }

  lemma MergeReachesSource(db: Database, a: Id, op: ScopeOps.ScopeOp, t: Id, p: Id, right: Right)
    requires Forest(db.scopes) && Placed(db) && a in db.principals && op.Merge? && ScopeOps.Merged(db, a, op).Ok?
    requires t in db.scopes && t != op.source && Ancestor(db.scopes, t, op.target) && Withheld(db, p, op.source, right)
    ensures Withheld(ScopeOps.Merged(db, a, op).value, p, t, right)
  {
    hide Forest, Placed, Chain, Ancestor, Withheld, ScopeOps.Merged, ScopeOps.Retained, Lets;
    MergedTree(db, a, op);
    NothingAbove(db.scopes, op.target);
    MergeAncestors(db, a, op, t, op.target);
    MergedPolicy(db, a, op, op.target, p, right);
    WithheldBy(ScopeOps.Merged(db, a, op).value, p, t, right, op.target);
  }

  lemma MergeWithholdsNoMore(db: Database, a: Id, op: ScopeOps.ScopeOp, t: Id, p: Id, right: Right)
    requires Forest(db.scopes) && Placed(db) && a in db.principals && op.Merge? && ScopeOps.Merged(db, a, op).Ok?
    requires t in db.scopes && t != op.source && Withheld(ScopeOps.Merged(db, a, op).value, p, t, right)
    ensures || Withheld(db, p, t, right)
            || (Ancestor(db.scopes, t, op.source) && Withheld(db, p, op.target, right))
            || (Ancestor(db.scopes, t, op.target) && Withheld(db, p, op.source, right))
  {
    hide Forest, Placed, Chain, Ancestor, Withheld, ScopeOps.Merged, ScopeOps.Retained, Lets;
    var d := ScopeOps.Merged(db, a, op).value;
    MergedTree(db, a, op);
    MergeMoves(db, a, op);
    var b := Withholder(d, p, t, right);
    AncestorKnown(d.scopes, t, b);
    MergeAncestors(db, a, op, t, b);
    MergedPolicy(db, a, op, b, p, right);
    if (b, p) in db.policies && !Lets(db.policies[(b, p)], right) {
      if Ancestor(db.scopes, t, b) { WithheldBy(db, p, t, right, b); } else { WithheldBy(db, p, op.target, right, b); }
    } else if Ancestor(db.scopes, t, op.source) {
      WithheldAbove(db, p, t, op.source, right);
    }
  }
}
