/** The scope operations, step by step on a session: each ends exactly as its specification says. */
module ScopeStore {
  import opened Base
  import opened Tables
  import opened ScopeTree
  import opened Sessions
  import opened ScopeOps
  import BillingEngines
  import opened LedgerMergeProofs

  method InsertScope(sess: Session, id: Id, row: Scope, owner: Id)
    modifies sess`used, sess`scopes, sess`owners
    ensures sess.Tables() == ScopeAdded(old(sess.Tables()), id, row, owner)
  {
    sess.used := sess.used + {id};
    sess.scopes := sess.scopes[id := row];
    sess.owners := sess.owners[id := Owner(row.org, owner)];
  }

  method ScopeCreate(sess: Session, a: Id, op: ScopeOp) returns (r: Result<()>)
    requires a in sess.principals && op.CreateScope?
    modifies sess
    ensures Answers(r, Created(old(sess.Tables()), a, op), sess.Tables())
  {
    hide RequireRole, NameTaken, ScopeAdded;
    var org := sess.principals[a].org;
    var parent :- FindScope(sess, org, op.parent);
    :- Require(sess, a, op.parent, Admin);
    :- Need(parent.kind != Project && parent.kind != Personal, InvalidArgument);
    :- Need(Manageable(op.kind), InvalidArgument);
    :- Need(op.id !in sess.used && !NameTaken(sess.scopes, op.parent, op.name, {}), Conflict);
    InsertScope(sess, op.id, Scope(org, Some(op.parent), op.name, op.kind), a);
    return Ok(());
  }

  /** Find the personal scope of a principal, or create it. */
  method EnsurePersonal(sess: Session, p: Id, id: Id) returns (r: Result<()>)
    requires p in sess.principals
    modifies sess`used, sess`scopes, sess`owners
    ensures Answers(r, PersonalEnsured(old(sess.Tables()), p, id), sess.Tables())
  {
    hide ScopeAdded;
    var org := sess.principals[p].org;
    var existing := set s | s in sess.scopes && sess.scopes[s].kind == Personal && sess.scopes[s].org == org
                         && s in sess.owners && sess.owners[s].principal == p;
    if existing != {} {
      var s :| s in existing;
      assert PersonalOf(sess.Tables(), s, p);
      return Ok(());
    }
    assert forall s :: s in sess.scopes && PersonalOf(sess.Tables(), s, p) ==> s in existing;
    if id in sess.used { return Err(Conflict); }
    InsertScope(sess, id, Scope(org, None, "Personal memory", Personal), p);
    return Ok(());
  }

  method ScopePolicySet(sess: Session, a: Id, op: ScopeOp) returns (r: Result<()>)
    requires a in sess.principals && op.SetPolicy?
    modifies sess`policies
    ensures Answers(r, PolicySet(old(sess.Tables()), a, op), sess.Tables())
  {
    var org := sess.principals[a].org;
    :- Need(sess.principals[a].admin, Denied);
    var _ :- FindScope(sess, org, op.scope);
    :- Need(op.principal in sess.principals && sess.principals[op.principal].org == org, NotFound);
    sess.policies := sess.policies[(op.scope, op.principal) := Policy(org, op.canExport, op.canDelete)];
    return Ok(());
  }

  method ScopeOwnerSet(sess: Session, a: Id, op: ScopeOp) returns (r: Result<()>)
    requires a in sess.principals && op.SetOwner?
    modifies sess`owners
    ensures Answers(r, OwnerSet(old(sess.Tables()), a, op), sess.Tables())
  {
    var org := sess.principals[a].org;
    :- Need(sess.principals[a].admin, Denied);
    var scope :- FindScope(sess, org, op.scope);
    :- Need(Manageable(scope.kind), Denied);
    :- Need(op.principal in sess.principals && sess.principals[op.principal].org == org
            && sess.principals[op.principal].active, NotFound);
    sess.owners := sess.owners[op.scope := Owner(org, op.principal)];
    return Ok(());
  }

  // ---------------------------------------------------------------- restrictions that travel

  type Policies = map<(Id, Id), Policy>

  /** What a principal had at the destination. */
  function Had(policies: Policies, org: Id, destination: Id, p: Id): Policy {
    if (destination, p) in policies then policies[(destination, p)] else Policy(org, true, true)
  }

  ghost predicate AllowedBy(policies: Policies, done: set<(Id, Id)>, p: Id, right: Right) {
    forall k :: k in done && k in policies && k.1 == p ==> Allows(policies[k], right)
  }

  ghost predicate RestrictedBy(policies: Policies, done: set<(Id, Id)>, p: Id) {
    exists k :: k in done && k in policies && k.1 == p && Restrictive(policies[k])
  }

  /** The destination's policy of one principal once the rows `done` were folded in. */
  ghost predicate Folded(before: Policies, now: Policies, org: Id, destination: Id, done: set<(Id, Id)>, p: Id) {
    var had := Had(before, org, destination, p);
    && ((destination, p) in now <==> (destination, p) in before || RestrictedBy(before, done, p))
    && ((destination, p) in now ==>
          now[(destination, p)] == Policy(had.org, had.canExport && AllowedBy(before, done, p, Export),
                                                   had.canDelete && AllowedBy(before, done, p, Delete)))
    && ((destination, p) !in now ==> AllowedBy(before, done, p, Export) && AllowedBy(before, done, p, Delete))
  }

  ghost predicate AllFolded(before: Policies, now: Policies, org: Id, destination: Id, done: set<(Id, Id)>) {
    && (forall k :: k in before.Keys + now.Keys && k.0 != destination ==> k in before && k in now && now[k] == before[k])
    && (forall p :: Folded(before, now, org, destination, done, p))
  }

  /** What the loop does with one row, reading the row as it is now. */
  function FoldIn(now: Policies, org: Id, destination: Id, k: (Id, Id)): Policies
    requires k in now
  {
    if now[k].canExport && now[k].canDelete then now
    else if (destination, k.1) in now then
      var existing := now[(destination, k.1)];
      now[(destination, k.1) := existing.(canExport := existing.canExport && now[k].canExport,
                                          canDelete := existing.canDelete && now[k].canDelete)]
    else now[(destination, k.1) := Policy(org, now[k].canExport, now[k].canDelete)]
  }

  lemma AllowedMore(policies: Policies, done: set<(Id, Id)>, k: (Id, Id), p: Id, right: Right)
    requires k in policies
    ensures AllowedBy(policies, done + {k}, p, right) <==> AllowedBy(policies, done, p, right) && (k.1 == p ==> Allows(policies[k], right))
    ensures RestrictedBy(policies, done + {k}, p) <==> RestrictedBy(policies, done, p) || (k.1 == p && Restrictive(policies[k]))
  {
    if RestrictedBy(policies, done, p) {
      var j :| j in done && j in policies && j.1 == p && Restrictive(policies[j]);
      assert j in done + {k};
    }
    if k.1 == p && Restrictive(policies[k]) { assert k in done + {k}; }
  }

  lemma FoldOneOther(before: Policies, now: Policies, org: Id, destination: Id, done: set<(Id, Id)>, k: (Id, Id), p: Id)
    requires Folded(before, now, org, destination, done, p) && k in before && k in now && k.1 != p
    ensures Folded(before, FoldIn(now, org, destination, k), org, destination, done + {k}, p)
  {
    hide AllowedBy, RestrictedBy;
    AllowedMore(before, done, k, p, Export);
    AllowedMore(before, done, k, p, Delete);
  }

  /** A row elsewhere is folded in as it was; the destination's own row changes nothing. */
  lemma FoldOne(before: Policies, now: Policies, org: Id, destination: Id, done: set<(Id, Id)>, k: (Id, Id))
    requires Folded(before, now, org, destination, done, k.1) && k in before && k in now
    requires k.0 != destination ==> now[k] == before[k]
    ensures Folded(before, FoldIn(now, org, destination, k), org, destination, done + {k}, k.1)
  {
    hide AllowedBy, RestrictedBy;
    AllowedMore(before, done, k, k.1, Export);
    AllowedMore(before, done, k, k.1, Delete);
    if k.0 == destination { assert k == (destination, k.1); }
  }

  lemma FoldStep(before: Policies, now: Policies, org: Id, destination: Id, done: set<(Id, Id)>, k: (Id, Id))
    requires AllFolded(before, now, org, destination, done) && k in before && k in now
    ensures AllFolded(before, FoldIn(now, org, destination, k), org, destination, done + {k})
  {
    hide Folded;
    var next := FoldIn(now, org, destination, k);
    forall p ensures Folded(before, next, org, destination, done + {k}, p) {
      if p == k.1 { FoldOne(before, now, org, destination, done, k); }
      else { FoldOneOther(before, now, org, destination, done, k, p); }
    }
  }

  ghost function OnChain(policies: Policies, org: Id, chain: seq<Id>): set<(Id, Id)> {
    set k | k in policies && k.0 in chain && policies[k].org == org
  }

  lemma ChainAllowed(policies: Policies, org: Id, chain: seq<Id>, p: Id, right: Right)
    ensures AllowedBy(policies, OnChain(policies, org, chain), p, right) <==> ChainAllows(policies, org, chain, p, right)
  {
    if AllowedBy(policies, OnChain(policies, org, chain), p, right) {
      forall s | s in chain && (s, p) in policies && policies[(s, p)].org == org ensures Allows(policies[(s, p)], right) {
        assert (s, p) in OnChain(policies, org, chain);
      }
    }
    if ChainAllows(policies, org, chain, p, right) {
      forall k | k in OnChain(policies, org, chain) && k.1 == p ensures Allows(policies[k], right) { assert k == (k.0, p); }
    }
  }

  lemma ChainRestricted(policies: Policies, org: Id, chain: seq<Id>, p: Id)
    ensures RestrictedBy(policies, OnChain(policies, org, chain), p) <==> p in Restricted(policies, org, chain)
  {
    if RestrictedBy(policies, OnChain(policies, org, chain), p) {
      var k :| k in OnChain(policies, org, chain) && k.1 == p && Restrictive(policies[k]);
      assert k in policies && k.0 in chain && policies[k].org == org && Restrictive(policies[k]) && k.1 == p;
    }
  }

  lemma NotRestrictedAllows(policies: Policies, done: set<(Id, Id)>, p: Id)
    requires !RestrictedBy(policies, done, p)
    ensures AllowedBy(policies, done, p, Export) && AllowedBy(policies, done, p, Delete)
  {
  }

  /** Once every row of the chain was folded in, in whatever order, the policies are the retained ones. */
  lemma FoldedIsRetained(before: Policies, now: Policies, org: Id, chain: seq<Id>, destination: Id)
    requires AllFolded(before, now, org, destination, OnChain(before, org, chain))
    ensures now == Retained(before, org, chain, destination)
  {
    hide ChainAllows, Restricted, AllowedBy, RestrictedBy;
    var spec := Retained(before, org, chain, destination);
    forall k | k in now.Keys + spec.Keys ensures k in now && k in spec && now[k] == spec[k] {
      if k.0 != destination {
        assert k in before.Keys + now.Keys;
      } else {
        var p := k.1;
        assert k == (destination, p);
        assert Folded(before, now, org, destination, OnChain(before, org, chain), p);
        ChainAllowed(before, org, chain, p, Export);
        ChainAllowed(before, org, chain, p, Delete);
        ChainRestricted(before, org, chain, p);
        if p !in Restricted(before, org, chain) { NotRestrictedAllows(before, OnChain(before, org, chain), p); }
      }
    }
    assert now.Keys == spec.Keys;
  }

  /** `_retain_scope_restrictions`: fold every policy on the source's chain into the destination, row by row,
      in an arbitrary order, each row read when its turn comes. */
  method RetainRestrictions(sess: Session, source: Id, destination: Id) returns (r: Result<()>)
    requires source in sess.scopes
    modifies sess`policies
    ensures r.Ok? <==> Chain(sess.scopes, source).Ok?
    ensures r.Err? ==> Chain(sess.scopes, source) == Err(r.code)
    ensures r.Ok? ==> sess.policies == Retained(old(sess.policies), sess.scopes[source].org, Chain(sess.scopes, source).value, destination)
  {
    hide AllFolded, Chain, Retained;
    var org := sess.scopes[source].org;
    var chain :- ScopeChain(sess, source);
    ghost var before := sess.policies;
    var rows := set k | k in sess.policies && k.0 in chain && sess.policies[k].org == org;
    var left := rows;
    assert rows - left == {};
    NothingFolded(before, org, destination);
    while left != {}
      invariant left <= rows && rows == OnChain(before, org, chain)
      invariant before.Keys <= sess.policies.Keys
      invariant AllFolded(before, sess.policies, org, destination, rows - left)
      decreases |left|
    {
      var k :| k in left;
      FoldStep(before, sess.policies, org, destination, rows - left, k);
      assert rows - left + {k} == rows - (left - {k});
      var policy := sess.policies[k];
      if policy.canExport && policy.canDelete {
        left := left - {k};
        continue;
      }
      if (destination, k.1) in sess.policies {
        var existing := sess.policies[(destination, k.1)];
        sess.policies := sess.policies[(destination, k.1) :=
          existing.(canExport := existing.canExport && policy.canExport, canDelete := existing.canDelete && policy.canDelete)];
      } else {
        sess.policies := sess.policies[(destination, k.1) := Policy(org, policy.canExport, policy.canDelete)];
      }
      left := left - {k};
    }
    assert rows - left == rows;
    FoldedIsRetained(before, sess.policies, org, chain, destination);
    return Ok(());
  }

  lemma NothingFolded(before: Policies, org: Id, destination: Id)
    ensures AllFolded(before, before, org, destination, {})
  {
  }

  method ScopeMove(sess: Session, a: Id, op: ScopeOp) returns (r: Result<()>)
    requires a in sess.principals && op.Move?
    modifies sess
    ensures Answers(r, Moved(old(sess.Tables()), a, op), sess.Tables())
  {
    hide RequireRole, Chain, Retained, NameTaken;
    var org := sess.principals[a].org;
    var scope :- FindScope(sess, org, op.scope);
    var parent :- FindScope(sess, org, op.parent);
    :- Require(sess, a, op.scope, Admin);
    :- Require(sess, a, op.parent, Admin);
    :- Need(Manageable(scope.kind) && (parent.kind == Organisation || parent.kind == Department), InvalidArgument);
    var above :- ScopeChain(sess, op.parent);
    :- Need(op.scope !in above, InvalidArgument);
    var _ :- RetainRestrictions(sess, op.scope, op.scope);
    :- Need(!NameTaken(sess.scopes, op.parent, scope.name, {op.scope}), Conflict);
    sess.scopes := sess.scopes[op.scope := scope.(parent := Some(op.parent))];
    return Ok(());
  }

  // ---------------------------------------------------------------- bulk statements

  method RewriteMemory(sess: Session, records: map<(Id, string), Record>, versions: map<(Id, string, nat), Version>,
                       proposals: map<Id, Proposal>)
    modifies sess`records, sess`versions, sess`proposals
    ensures sess.Tables() == old(sess.Tables()).(records := records, versions := versions, proposals := proposals)
  {
    sess.records, sess.versions, sess.proposals := records, versions, proposals;
  }

  method RewriteTraffic(sess: Session, locks: set<(Id, string)>, messages: map<Id, Message>, jobs: map<Id, Job>)
    modifies sess`locks, sess`messages, sess`jobs
    ensures sess.Tables() == old(sess.Tables()).(locks := locks, messages := messages, jobs := jobs)
  {
    sess.locks, sess.messages, sess.jobs := locks, messages, jobs;
  }

  method RewriteAccess(sess: Session, grants: map<(Id, Id), Grant>, owners: map<Id, Owner>, policies: map<(Id, Id), Policy>)
    modifies sess`grants, sess`owners, sess`policies
    ensures sess.Tables() == old(sess.Tables()).(grants := grants, owners := owners, policies := policies)
  {
    sess.grants, sess.owners, sess.policies := grants, owners, policies;
  }

  method RewriteScopes(sess: Session, locks: set<(Id, string)>, scopes: Scopes)
    modifies sess`locks, sess`scopes
    ensures sess.Tables() == old(sess.Tables()).(locks := locks, scopes := scopes)
  {
    sess.locks, sess.scopes := locks, scopes;
  }

  /** `_delete_empty_scope`. */
  method DeleteEmptyScope(sess: Session, sid: Id)
    modifies sess`grants, sess`owners, sess`policies, sess`locks, sess`scopes
    ensures sess.Tables() == Dropped(old(sess.Tables()), sid)
  {
    RewriteAccess(sess, map k | k in sess.grants && k.1 != sid :: sess.grants[k], sess.owners - {sid},
                  map k | k in sess.policies && k.0 != sid :: sess.policies[k]);
    RewriteScopes(sess, (set l | l in sess.locks && l.0 != sid), sess.scopes - {sid});
  }

  method PurgeScope(sess: Session, org: Id, sid: Id)
    modifies sess`records, sess`versions, sess`proposals, sess`messages, sess`jobs, sess`locks
    ensures sess.Tables() == Purged(old(sess.Tables()), org, sid)
  {
    RewriteMemory(sess, map k | k in sess.records && !(k.0 == sid && sess.records[k].org == org) :: sess.records[k],
                  map k | k in sess.versions && !(k.0 == sid && sess.versions[k].org == org) :: sess.versions[k],
                  map i | i in sess.proposals && !(sess.proposals[i].scope == sid && sess.proposals[i].org == org) :: sess.proposals[i]);
    RewriteTraffic(sess, sess.locks,
                   map i | i in sess.messages && !(sess.messages[i].scope == sid && sess.messages[i].org == org) :: sess.messages[i],
                   map i | i in sess.jobs && !(sess.jobs[i].scope == sid && sess.jobs[i].org == org) :: sess.jobs[i]);
  }

  method ScopeDelete(cfg: Config, sess: Session, a: Id, op: ScopeOp) returns (r: Result<()>)
    requires a in sess.principals && op.DeleteScope?
    modifies sess
    ensures Answers(r, Deleted(cfg, old(sess.Tables()), a, op), sess.Tables())
  {
    hide RequireRole, Permitted, HasChild, HasData, Purged, Dropped, Recount;
    var org := sess.principals[a].org;
    var scope :- FindScope(sess, org, op.scope);
    :- Require(sess, a, op.scope, Admin);
    :- Need(Manageable(scope.kind), Denied);
    var flags :- PermissionFlags(sess, a, op.scope);
    :- Need(flags.1, Denied);
    :- Need(!HasChild(sess.scopes, op.scope), Conflict);
    :- Need(!HasData(sess.Tables(), op.scope) || op.contents, Conflict);
    if op.contents {
      PurgeScope(sess, org, op.scope);
      if cfg.metered { BillingEngines.RecomputeUsage(sess, org); }
    }
    DeleteEmptyScope(sess, op.scope);
    return Ok(());
  }

  // ---------------------------------------------------------------- merging two departments

  /** Every child of the source gets a new parent, one after the other. */
  method AdoptChildren(sess: Session, source: Id, target: Id)
    modifies sess`scopes
    ensures sess.scopes == Adopted(old(sess.scopes), source, target)
  {
    ghost var before := sess.scopes;
    var left := set s | s in sess.scopes && sess.scopes[s].parent == Some(source);
    while left != {}
      invariant forall s :: s in left ==> s in before && before[s].parent == Some(source)
      invariant sess.scopes.Keys == before.Keys
      invariant forall s :: s in before ==>
        sess.scopes[s] == if s !in left && before[s].parent == Some(source) then before[s].(parent := Some(target)) else before[s]
      decreases |left|
    {
      var child :| child in left;
      sess.scopes := sess.scopes[child := sess.scopes[child].(parent := Some(target))];
      left := left - {child};
    }
  }

  ghost predicate RecordsStayApart(rows: map<(Id, string), Record>, source: Id, target: Id) {
    forall j, k :: j in rows && k in rows && Home(source, target, j.0) == Home(source, target, k.0) && j.1 == k.1 ==> j == k
  }

  /** `UPDATE memory_records SET scope_id = target WHERE scope_id = source`. */
  function UpdatedRecords(rows: map<(Id, string), Record>, source: Id, target: Id): map<(Id, string), Record>
    requires RecordsStayApart(rows, source, target)
  {
    map k | k in rows :: (Home(source, target, k.0), k.1) := rows[k]
  }

  /** Because no memory key is in both departments, no two rows meet under one key. */
  lemma RecordsApart(db: Database, source: Id, target: Id)
    requires KeysApart(db, source, target)
    ensures RecordsStayApart(db.records, source, target)
  {
    hide MemoryKeys;
    forall j, k | j in db.records && k in db.records && Home(source, target, j.0) == Home(source, target, k.0) && j.1 == k.1
      ensures j == k
    {
      RecordListed(db, j);
      RecordListed(db, k);
    }
  }

  lemma RecordsAgree(db: Database, source: Id, target: Id)
    requires KeysApart(db, source, target) && RecordsStayApart(db.records, source, target)
    ensures UpdatedRecords(db.records, source, target) == Rehomed(db, source, target).records
  {
    hide Rehomed, KeysApart, Home;
    var updated, spec := UpdatedRecords(db.records, source, target), Rehomed(db, source, target).records;
    forall k | k in updated ensures k in spec && updated[k] == spec[k] {
      var q :| q in db.records && k == (Home(source, target, q.0), q.1);
      RecordForward(db, source, target, q);
    }
    forall k | k in spec ensures k in updated {
      var q := RecordBack(db, source, target, k);
      assert (Home(source, target, q.0), q.1) in updated;
    }
  }

  ghost predicate VersionsStayApart(rows: map<(Id, string, nat), Version>, source: Id, target: Id) {
    forall j, k :: j in rows && k in rows && Home(source, target, j.0) == Home(source, target, k.0) && j.1 == k.1 && j.2 == k.2 ==> j == k
  }

  /** `UPDATE memory_versions SET scope_id = target WHERE scope_id = source`. */
  function UpdatedVersions(rows: map<(Id, string, nat), Version>, source: Id, target: Id): map<(Id, string, nat), Version>
    requires VersionsStayApart(rows, source, target)
  {
    map k | k in rows :: (Home(source, target, k.0), k.1, k.2) := rows[k]
  }

  lemma VersionsApart(db: Database, source: Id, target: Id)
    requires KeysApart(db, source, target)
    ensures VersionsStayApart(db.versions, source, target)
  {
    hide MemoryKeys;
    forall j, k | j in db.versions && k in db.versions && Home(source, target, j.0) == Home(source, target, k.0) && j.1 == k.1 && j.2 == k.2
      ensures j == k
    {
      VersionListed(db, j);
      VersionListed(db, k);
    }
  }

  lemma VersionsAgree(db: Database, source: Id, target: Id)
    requires KeysApart(db, source, target) && VersionsStayApart(db.versions, source, target)
    ensures UpdatedVersions(db.versions, source, target) == Rehomed(db, source, target).versions
  {
    hide Rehomed, KeysApart, Home;
    var updated, spec := UpdatedVersions(db.versions, source, target), Rehomed(db, source, target).versions;
    forall k | k in updated ensures k in spec && updated[k] == spec[k] {
      var q :| q in db.versions && k == (Home(source, target, q.0), q.1, q.2);
      VersionForward(db, source, target, q);
    }
    forall k | k in spec ensures k in updated {
      var q := VersionBack(db, source, target, k);
      assert (Home(source, target, q.0), q.1, q.2) in updated;
    }
  }

  method RehomeRows(sess: Session, source: Id, target: Id)
    requires KeysApart(sess.Tables(), source, target)
    modifies sess`records, sess`versions, sess`proposals, sess`messages, sess`jobs, sess`locks
    ensures sess.Tables() == Rehomed(old(sess.Tables()), source, target)
  {
    hide RehomedRecordKeys, RehomedVersionKeys, KeysApart, UpdatedRecords, UpdatedVersions, RecordsStayApart, VersionsStayApart;
    RecordsApart(sess.Tables(), source, target);
    RecordsAgree(sess.Tables(), source, target);
    VersionsApart(sess.Tables(), source, target);
    VersionsAgree(sess.Tables(), source, target);
    RewriteMemory(sess, UpdatedRecords(sess.records, source, target), UpdatedVersions(sess.versions, source, target),
                  map i | i in sess.proposals :: sess.proposals[i].(scope := Home(source, target, sess.proposals[i].scope)));
    RewriteTraffic(sess, set l | l in sess.locks :: (Home(source, target, l.0), l.1),
                   map i | i in sess.messages :: sess.messages[i].(scope := Home(source, target, sess.messages[i].scope)),
                   map i | i in sess.jobs :: sess.jobs[i].(scope := Home(source, target, sess.jobs[i].scope)));
  }

  method ScopeMerge(sess: Session, a: Id, op: ScopeOp) returns (r: Result<()>)
    requires a in sess.principals && op.Merge?
    modifies sess
    ensures Answers(r, Merged(old(sess.Tables()), a, op), sess.Tables())
  {
    hide Chain, Permitted, ChildNamesCollide, MemoryKeys, JobsCollide, Retained, Adopted, Rehomed, Dropped;
    ghost var db := sess.Tables();
    var org := sess.principals[a].org;
    :- Need(sess.principals[a].admin, Denied);
    var source :- FindScope(sess, org, op.source);
    var target :- FindScope(sess, org, op.target);
    :- Need(source.kind == Department && target.kind == Department && op.source != op.target, InvalidArgument);
    var above :- ScopeChain(sess, op.target);
    :- Need(op.source !in above, InvalidArgument);
    var flags :- PermissionFlags(sess, a, op.source);
    :- Need(flags.1, Denied);
    :- Need(!ChildNamesCollide(sess.scopes, op.source, op.target, {op.source}), Conflict);
    :- Need(MemoryKeys(sess.Tables(), op.source) !! MemoryKeys(sess.Tables(), op.target), Conflict);
    var _ :- RetainRestrictions(sess, op.source, op.target);
    :- Need(!ChildNamesCollide(sess.scopes, op.source, op.target, {}), Conflict);
    :- Need(!JobsCollide(sess.jobs, op.source, op.target), Conflict);
    AdoptChildren(sess, op.source, op.target);
    SameKeys(db, sess.Tables(), op.source);
    SameKeys(db, sess.Tables(), op.target);
    RehomeRows(sess, op.source, op.target);
    DeleteEmptyScope(sess, op.source);
    return Ok(());
  }

  method Perform(cfg: Config, sess: Session, a: Id, op: ScopeOp) returns (r: Result<()>)
    requires a in sess.principals
    modifies sess
    ensures Answers(r, Performed(cfg, old(sess.Tables()), a, op), sess.Tables())
  {
    hide Created, PolicySet, OwnerSet, Moved, Deleted, Merged, PersonalEnsured;
    match op
    case CreateScope(_, _, _, _) => r := ScopeCreate(sess, a, op);
    case SetPolicy(_, _, _, _) => r := ScopePolicySet(sess, a, op);
    case SetOwner(_, _) => r := ScopeOwnerSet(sess, a, op);
    case Move(_, _) => r := ScopeMove(sess, a, op);
    case DeleteScope(_, _) => r := ScopeDelete(cfg, sess, a, op);
    case Merge(_, _) => r := ScopeMerge(sess, a, op);
    case OpenPersonal(id) => r := EnsurePersonal(sess, a, id);
  }
}
