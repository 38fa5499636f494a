/** Every row belongs to the organisation of the scope it lives in, and every reference is kept:
    no foreign key is ever left behind. */
module PlacementProofs {
  import opened Base
  import opened Tables
  import opened ScopeTree
  import ScopeOps
  import PeopleOps
  import MemoryOps
  import JobOps
  import SlotOps
  import Meter
  import PayloadScan
  import opened Workspace

  ghost predicate Lives(scopes: Scopes, sid: Id, org: Id) {
    sid in scopes && scopes[sid].org == org
  }

  ghost predicate Belongs(principals: map<Id, Principal>, p: Id, org: Id) {
    p in principals && principals[p].org == org
  }

  ghost predicate OwnersPlaced(scopes: Scopes, principals: map<Id, Principal>, owners: map<Id, Owner>) {
    forall s :: s in owners ==> Lives(scopes, s, owners[s].org) && Belongs(principals, owners[s].principal, owners[s].org)
  }

  ghost predicate PoliciesPlaced(scopes: Scopes, principals: map<Id, Principal>, policies: map<(Id, Id), Policy>) {
    forall k :: k in policies ==> Lives(scopes, k.0, policies[k].org) && Belongs(principals, k.1, policies[k].org)
  }

  ghost predicate GrantsPlaced(scopes: Scopes, principals: map<Id, Principal>, grants: map<(Id, Id), Grant>) {
    forall k :: k in grants ==> Lives(scopes, k.1, grants[k].org) && Belongs(principals, k.0, grants[k].org)
  }

  ghost predicate LocksPlaced(scopes: Scopes, locks: set<(Id, string)>) {
    forall l :: l in locks ==> l.0 in scopes
  }

  ghost predicate RecordsPlaced(scopes: Scopes, records: map<(Id, string), Record>) {
    forall k :: k in records ==> Lives(scopes, k.0, records[k].org)
  }

  ghost predicate VersionsPlaced(scopes: Scopes, versions: map<(Id, string, nat), Version>) {
    forall k :: k in versions ==> Lives(scopes, k.0, versions[k].org)
  }

  ghost predicate ProposalsPlaced(scopes: Scopes, proposals: map<Id, Proposal>) {
    forall i :: i in proposals ==> Lives(scopes, proposals[i].scope, proposals[i].org)
  }

  ghost predicate MessagesPlaced(scopes: Scopes, messages: map<Id, Message>) {
    forall i :: i in messages ==> Lives(scopes, messages[i].scope, messages[i].org)
  }

  ghost predicate JobsPlaced(scopes: Scopes, jobs: map<Id, Job>) {
    forall i :: i in jobs ==> Lives(scopes, jobs[i].scope, jobs[i].org)
  }

  ghost predicate PayloadPlaced(db: Database, scopes: Scopes) {
    && LocksPlaced(scopes, db.locks)
    && RecordsPlaced(scopes, db.records)
    && VersionsPlaced(scopes, db.versions)
    && ProposalsPlaced(scopes, db.proposals)
    && MessagesPlaced(scopes, db.messages)
    && JobsPlaced(scopes, db.jobs)
  }

  ghost predicate AccessPlaced(scopes: Scopes, principals: map<Id, Principal>, owners: map<Id, Owner>,
                               policies: map<(Id, Id), Policy>, grants: map<(Id, Id), Grant>) {
    && OwnersPlaced(scopes, principals, owners)
    && PoliciesPlaced(scopes, principals, policies)
    && GrantsPlaced(scopes, principals, grants)
  }

  ghost predicate HasAccessPlaced(db: Database) {
    AccessPlaced(db.scopes, db.principals, db.owners, db.policies, db.grants)
  }

  /** Every identifier in use was generated once. */
  ghost predicate Known(db: Database) {
    && db.scopes.Keys <= db.used && db.principals.Keys <= db.used && db.proposals.Keys <= db.used
    && db.messages.Keys <= db.used && db.jobs.Keys <= db.used
  }

  ghost predicate Placed(db: Database) {
    Known(db) && HasAccessPlaced(db) && PayloadPlaced(db, db.scopes)
  }

  // ---------------------------------------------------------------- growth

  /** Scopes and principals are only added, and none changes organisation. */
  ghost predicate Grew(before: Database, after: Database) {
    && (forall s :: s in before.scopes ==> Lives(after.scopes, s, before.scopes[s].org))
    && (forall p :: p in before.principals ==> Belongs(after.principals, p, before.principals[p].org))
  }

  lemma PayloadGrew(before: Database, after: Database)
    requires Grew(before, after) && PayloadPlaced(before, before.scopes)
    ensures PayloadPlaced(before, after.scopes)
  {
  }

  lemma AccessGrew(before: Database, after: Database)
    requires Grew(before, after) && HasAccessPlaced(before)
    ensures HasAccessPlaced(before.(scopes := after.scopes, principals := after.principals))
  {
    var d := before.(scopes := after.scopes, principals := after.principals);
    assert OwnersPlaced(d.scopes, d.principals, d.owners);
    assert PoliciesPlaced(d.scopes, d.principals, d.policies);
    assert GrantsPlaced(d.scopes, d.principals, d.grants);
  }

  // ---------------------------------------------------------------- scope operations

  lemma ScopeAddedPlaced(db: Database, id: Id, row: Scope, owner: Id)
    requires Placed(db) && id !in db.used && Belongs(db.principals, owner, row.org)
    ensures Placed(ScopeOps.ScopeAdded(db, id, row, owner))
  {
    hide PayloadPlaced, OwnersPlaced, PoliciesPlaced, GrantsPlaced, Grew, Known;
    var d := ScopeOps.ScopeAdded(db, id, row, owner);
    AddedKnown(db, id, row, owner);
    PayloadGrew(db, d);
    PayloadSame(db, d, d.scopes);
    AccessGrew(db, d);
    OwnerAdded(d.scopes, d.principals, db.owners, id, Owner(row.org, owner));
  }

  lemma AddedKnown(db: Database, id: Id, row: Scope, owner: Id)
    requires Known(db) && id !in db.used
    ensures Known(ScopeOps.ScopeAdded(db, id, row, owner)) && Grew(db, ScopeOps.ScopeAdded(db, id, row, owner))
    ensures Lives(ScopeOps.ScopeAdded(db, id, row, owner).scopes, id, row.org)
  {
  }

  lemma OwnerAdded(scopes: Scopes, principals: map<Id, Principal>, owners: map<Id, Owner>, id: Id, row: Owner)
    requires OwnersPlaced(scopes, principals, owners) && Lives(scopes, id, row.org) && Belongs(principals, row.principal, row.org)
    ensures OwnersPlaced(scopes, principals, owners[id := row])
  {
  }

  lemma CreatedPlaced(db: Database, a: Id, op: ScopeOps.ScopeOp)
    requires Placed(db) && a in db.principals && op.CreateScope? && ScopeOps.Created(db, a, op).Ok?
    ensures Placed(ScopeOps.Created(db, a, op).value)
  {
    hide RequireRole, Placed, ScopeOps.ScopeAdded, ScopeOps.NameTaken;
    ScopeAddedPlaced(db, op.id, Scope(db.principals[a].org, Some(op.parent), op.name, op.kind), a);
  }

  lemma PersonalAddedPlaced(db: Database, p: Id, id: Id)
    requires Placed(db) && p in db.principals && id !in db.used
    ensures Placed(ScopeOps.PersonalAdded(db, p, id))
  {
    hide Placed, ScopeOps.ScopeAdded;
    ScopeAddedPlaced(db, id, Scope(db.principals[p].org, None, "Personal memory", Personal), p);
  }

  lemma PersonalPlaced(db: Database, p: Id, id: Id)
    requires Placed(db) && p in db.principals && ScopeOps.PersonalEnsured(db, p, id).Ok?
    ensures Placed(ScopeOps.PersonalEnsured(db, p, id).value)
  {
    hide ScopeOps.HasPersonal, ScopeOps.PersonalAdded, Placed;
    if !ScopeOps.HasPersonal(db, p) { PersonalAddedPlaced(db, p, id); }
  }

  lemma PolicySetPlaced(db: Database, a: Id, op: ScopeOps.ScopeOp)
    requires Placed(db) && a in db.principals && op.SetPolicy? && ScopeOps.PolicySet(db, a, op).Ok?
    ensures Placed(ScopeOps.PolicySet(db, a, op).value)
  {
  }

  lemma OwnerSetPlaced(db: Database, a: Id, op: ScopeOps.ScopeOp)
    requires Placed(db) && a in db.principals && op.SetOwner? && ScopeOps.OwnerSet(db, a, op).Ok?
    ensures Placed(ScopeOps.OwnerSet(db, a, op).value)
  {
  }

  lemma RetainedPlaced(db: Database, org: Id, chain: seq<Id>, destination: Id)
    requires PoliciesPlaced(db.scopes, db.principals, db.policies) && Lives(db.scopes, destination, org)
    ensures PoliciesPlaced(db.scopes, db.principals, ScopeOps.Retained(db.policies, org, chain, destination))
  {
    hide ChainAllows, ScopeOps.Restrictive;
    var after := ScopeOps.Retained(db.policies, org, chain, destination);
    forall k | k in after ensures Lives(db.scopes, k.0, after[k].org) && Belongs(db.principals, k.1, after[k].org) {
      if k !in db.policies || after[k] != db.policies[k] {
        assert k.1 in ScopeOps.Restricted(db.policies, org, chain);
        var q :| q in db.policies && q.0 in chain && db.policies[q].org == org && q.1 == k.1;
      }
    }
  }

  lemma MovedPlaced(db: Database, a: Id, op: ScopeOps.ScopeOp)
    requires Placed(db) && a in db.principals && op.Move? && ScopeOps.Moved(db, a, op).Ok?
    ensures Placed(ScopeOps.Moved(db, a, op).value)
  {
    hide RequireRole, Chain, ScopeOps.Retained, ScopeOps.NameTaken;
    var d := ScopeOps.Moved(db, a, op).value;
    RetainedPlaced(db, db.principals[a].org, Chain(db.scopes, op.scope).value, op.scope);
    PayloadGrew(db, d);
    AccessGrew(db.(policies := d.policies), d);
  }

  lemma DroppedAccess(db: Database, sid: Id)
    requires HasAccessPlaced(db)
    ensures HasAccessPlaced(ScopeOps.Dropped(db, sid))
  {
  }

  /** Removing a scope that holds no payload leaves no reference behind. */
  lemma DroppedPlaced(db: Database, sid: Id)
    requires Placed(db) && !ScopeOps.HasData(db, sid)
    ensures Placed(ScopeOps.Dropped(db, sid))
  {
    hide AccessPlaced;
    DroppedAccess(db, sid);
  }

  /** Because rows and scopes agree on the organisation, a purge removes every payload row of the scope. */
  lemma PurgedPlaced(db: Database, org: Id, sid: Id)
    requires Placed(db) && Lives(db.scopes, sid, org)
    ensures Placed(ScopeOps.Purged(db, org, sid)) && !ScopeOps.HasData(ScopeOps.Purged(db, org, sid), sid)
  {
    hide AccessPlaced, LocksPlaced, RecordsPlaced, VersionsPlaced, ProposalsPlaced, MessagesPlaced, JobsPlaced, Lives, ScopeOps.Purged;
    PurgedFrame(db, org, sid);
    PurgedHistory(db, org, sid);
    PurgedRows(db, org, sid);
  }

  lemma PurgedFrame(db: Database, org: Id, sid: Id)
    ensures var d := ScopeOps.Purged(db, org, sid);
      && d == db.(records := d.records, versions := d.versions, proposals := d.proposals, messages := d.messages, jobs := d.jobs)
      && d.proposals.Keys <= db.proposals.Keys && d.messages.Keys <= db.messages.Keys && d.jobs.Keys <= db.jobs.Keys
  {
  }

  lemma PurgedHistory(db: Database, org: Id, sid: Id)
    requires RecordsPlaced(db.scopes, db.records) && VersionsPlaced(db.scopes, db.versions) && Lives(db.scopes, sid, org)
    ensures var d := ScopeOps.Purged(db, org, sid);
      && RecordsPlaced(db.scopes, d.records) && VersionsPlaced(db.scopes, d.versions)
      && (forall k :: k in d.records ==> k.0 != sid) && (forall k :: k in d.versions ==> k.0 != sid)
  {
    var d := ScopeOps.Purged(db, org, sid);
    forall k | k in d.records ensures k.0 != sid { assert Lives(db.scopes, k.0, db.records[k].org); }
    forall k | k in d.versions ensures k.0 != sid { assert Lives(db.scopes, k.0, db.versions[k].org); }
  }

  lemma PurgedRows(db: Database, org: Id, sid: Id)
    requires ProposalsPlaced(db.scopes, db.proposals) && MessagesPlaced(db.scopes, db.messages) && JobsPlaced(db.scopes, db.jobs)
    requires Lives(db.scopes, sid, org)
    ensures var d := ScopeOps.Purged(db, org, sid);
      && ProposalsPlaced(db.scopes, d.proposals) && MessagesPlaced(db.scopes, d.messages) && JobsPlaced(db.scopes, d.jobs)
      && (forall i :: i in d.proposals ==> d.proposals[i].scope != sid) && (forall i :: i in d.messages ==> d.messages[i].scope != sid)
      && (forall i :: i in d.jobs ==> d.jobs[i].scope != sid)
  {
    var d := ScopeOps.Purged(db, org, sid);
    forall i | i in d.proposals ensures d.proposals[i].scope != sid { assert Lives(db.scopes, db.proposals[i].scope, db.proposals[i].org); }
    forall i | i in d.messages ensures d.messages[i].scope != sid { assert Lives(db.scopes, db.messages[i].scope, db.messages[i].org); }
    forall i | i in d.jobs ensures d.jobs[i].scope != sid { assert Lives(db.scopes, db.jobs[i].scope, db.jobs[i].org); }
  }

  lemma DeletedPlaced(cfg: Config, db: Database, a: Id, op: ScopeOps.ScopeOp)
    requires Placed(db) && a in db.principals && op.DeleteScope? && ScopeOps.Deleted(cfg, db, a, op).Ok?
    ensures Placed(ScopeOps.Deleted(cfg, db, a, op).value)
  {
    hide RequireRole, Permitted, Meter.Recounted, ScopeOps.HasChild, ScopeOps.Dropped, ScopeOps.Purged, ScopeOps.HasData;
    var org := db.principals[a].org;
    if op.contents {
      var purged := ScopeOps.Purged(db, org, op.scope);
      PurgedPlaced(db, org, op.scope);
      var counted := Meter.Recounted(cfg, purged, org);
      assert Placed(counted);
      SameData(purged, counted, op.scope);
      DroppedPlaced(counted, op.scope);
    } else {
      DroppedPlaced(db, op.scope);
    }
  }

  lemma SameData(a: Database, b: Database, sid: Id)
    requires b == a.(usage := b.usage)
    ensures ScopeOps.HasData(a, sid) == ScopeOps.HasData(b, sid)
  {
  }

  lemma RehomedRecordsPlaced(db: Database, source: Id, target: Id, org: Id)
    requires RecordsPlaced(db.scopes, db.records)
    requires Lives(db.scopes, source, org) && Lives(db.scopes, target, org) && source != target
    ensures RecordsPlaced(db.scopes, ScopeOps.Rehomed(db, source, target).records)
    ensures forall k :: k in ScopeOps.Rehomed(db, source, target).records ==> k.0 != source
  {
    var records := ScopeOps.Rehomed(db, source, target).records;
    forall k | k in records ensures Lives(db.scopes, k.0, records[k].org) && k.0 != source {
      var q :| q in db.records && k == (ScopeOps.Home(source, target, q.0), q.1);
      assert k.0 != source;
      if k !in db.records { assert q == (source, k.1); }
    }
  }

  lemma RehomedVersionsPlaced(db: Database, source: Id, target: Id, org: Id)
    requires VersionsPlaced(db.scopes, db.versions)
    requires Lives(db.scopes, source, org) && Lives(db.scopes, target, org) && source != target
    ensures VersionsPlaced(db.scopes, ScopeOps.Rehomed(db, source, target).versions)
    ensures forall k :: k in ScopeOps.Rehomed(db, source, target).versions ==> k.0 != source
  {
    var versions := ScopeOps.Rehomed(db, source, target).versions;
    forall k | k in versions ensures Lives(db.scopes, k.0, versions[k].org) && k.0 != source {
      var q :| q in db.versions && k == (ScopeOps.Home(source, target, q.0), q.1, q.2);
      assert k.0 != source;
      if k !in db.versions { assert q == (source, k.1, k.2); }
    }
  }

  lemma RehomedRowsPlaced(db: Database, source: Id, target: Id, org: Id)
    requires Placed(db) && Lives(db.scopes, source, org) && Lives(db.scopes, target, org) && source != target
    ensures var d := ScopeOps.Rehomed(db, source, target);
      && LocksPlaced(d.scopes, d.locks) && ProposalsPlaced(d.scopes, d.proposals)
      && MessagesPlaced(d.scopes, d.messages) && JobsPlaced(d.scopes, d.jobs)
  {
  }

  lemma RehomedPlaced(db: Database, source: Id, target: Id, org: Id)
    requires Placed(db) && Lives(db.scopes, source, org) && Lives(db.scopes, target, org) && source != target
    ensures Placed(ScopeOps.Rehomed(db, source, target)) && !ScopeOps.HasData(ScopeOps.Rehomed(db, source, target), source)
  {
    hide RecordsPlaced, VersionsPlaced, LocksPlaced, ProposalsPlaced, MessagesPlaced, JobsPlaced, AccessPlaced;
    RehomedRecordsPlaced(db, source, target, org);
    RehomedVersionsPlaced(db, source, target, org);
    RehomedRowsPlaced(db, source, target, org);
  }

  lemma AdoptedPlaced(db: Database, source: Id, target: Id)
    requires Placed(db)
    ensures Placed(db.(scopes := ScopeOps.Adopted(db.scopes, source, target)))
  {
    var d := db.(scopes := ScopeOps.Adopted(db.scopes, source, target));
    PayloadGrew(db, d);
    AccessGrew(db, d);
  }

  lemma MergedPlaced(db: Database, a: Id, op: ScopeOps.ScopeOp)
    requires Placed(db) && a in db.principals && op.Merge? && ScopeOps.Merged(db, a, op).Ok?
    ensures Placed(ScopeOps.Merged(db, a, op).value)
  {
    hide Permitted, Chain, ScopeOps.Dropped, ScopeOps.Rehomed, ScopeOps.Adopted, ScopeOps.Retained, ScopeOps.HasData,
         ScopeOps.ChildNamesCollide, ScopeOps.JobsCollide, ScopeOps.MemoryKeys, Placed;
    var org := db.principals[a].org;
    var chain := Chain(db.scopes, op.source).value;
    var retained := db.(policies := ScopeOps.Retained(db.policies, org, chain, op.target));
    RetainedAll(db, org, chain, op.target);
    AdoptedPlaced(retained, op.source, op.target);
    var adopted := retained.(scopes := ScopeOps.Adopted(db.scopes, op.source, op.target));
    AdoptedLives(db.scopes, op.source, op.target, op.source, org);
    AdoptedLives(db.scopes, op.source, op.target, op.target, org);
    RehomedPlaced(adopted, op.source, op.target, org);
    DroppedPlaced(ScopeOps.Rehomed(adopted, op.source, op.target), op.source);
  }

  lemma RetainedAll(db: Database, org: Id, chain: seq<Id>, destination: Id)
    requires Placed(db) && Lives(db.scopes, destination, org)
    ensures Placed(db.(policies := ScopeOps.Retained(db.policies, org, chain, destination)))
  {
    RetainedPlaced(db, org, chain, destination);
  }

  lemma AdoptedLives(scopes: Scopes, source: Id, target: Id, sid: Id, org: Id)
    requires Lives(scopes, sid, org)
    ensures Lives(ScopeOps.Adopted(scopes, source, target), sid, org)
  {
  }

  lemma ScopeOpPlaced(cfg: Config, db: Database, a: Id, op: ScopeOps.ScopeOp)
    requires Placed(db) && a in db.principals && ScopeOps.Performed(cfg, db, a, op).Ok?
    ensures Placed(ScopeOps.Performed(cfg, db, a, op).value)
  {
    hide Placed, ScopeOps.Created, ScopeOps.PolicySet, ScopeOps.OwnerSet, ScopeOps.Moved, ScopeOps.Deleted, ScopeOps.Merged,
         ScopeOps.PersonalEnsured;
    match op
    case CreateScope(_, _, _, _) => CreatedPlaced(db, a, op);
    case SetPolicy(_, _, _, _) => PolicySetPlaced(db, a, op);
    case SetOwner(_, _) => OwnerSetPlaced(db, a, op);
    case Move(_, _) => MovedPlaced(db, a, op);
    case DeleteScope(_, _) => DeletedPlaced(cfg, db, a, op);
    case Merge(_, _) => MergedPlaced(db, a, op);
    case OpenPersonal(id) => PersonalPlaced(db, a, id);
  }

  // ---------------------------------------------------------------- people

  lemma WithPrincipal(db: Database, id: Id, row: Principal, usage: map<Id, int>)
    requires Placed(db) && id !in db.used
    ensures Placed(db.(used := db.used + {id}, principals := db.principals[id := row], usage := usage))
  {
    var d := db.(used := db.used + {id}, principals := db.principals[id := row], usage := usage);
    AccessGrew(db, d);
  }

  lemma PrincipalCreatedPlaced(cfg: Config, db: Database, a: Id, op: PeopleOps.PeopleOp)
    requires Placed(db) && a in db.principals && op.CreatePrincipal? && PeopleOps.PrincipalCreated(cfg, db, a, op).Ok?
    ensures Placed(PeopleOps.PrincipalCreated(cfg, db, a, op).value)
  {
    hide Placed, ScopeOps.PersonalEnsured, Meter.Admitted, PeopleOps.NameOrTokenTaken;
    var row := Principal(db.principals[a].org, op.name, op.digest, false, true, op.now);
    var d := PeopleOps.PrincipalCreated(cfg, db, a, op).value;
    WithPrincipal(db, op.id, row, d.usage);
    PersonalPlaced(db.(used := db.used + {op.id}, principals := db.principals[op.id := row], usage := d.usage), op.id, op.personal);
  }

  lemma PeopleOpPlaced(cfg: Config, db: Database, a: Id, op: PeopleOps.PeopleOp)
    requires Placed(db) && a in db.principals && PeopleOps.Performed(cfg, db, a, op).Ok?
    ensures Placed(PeopleOps.Performed(cfg, db, a, op).value)
  {
    hide RequireRole, PeopleOps.PrincipalCreated, PeopleOps.ActiveAdmins, LocksPlaced, RecordsPlaced, VersionsPlaced, ProposalsPlaced,
         MessagesPlaced, JobsPlaced, OwnersPlaced, PoliciesPlaced;
    var d := PeopleOps.Performed(cfg, db, a, op).value;
    match op
    case CreatePrincipal(_, _, _, _, _) => PrincipalCreatedPlaced(cfg, db, a, op);
    case RevokePrincipal(_) => AccessGrew(db, d); assert Grew(db, d);
    case GrantRole(_, _, _) => assert GrantsPlaced(d.scopes, d.principals, d.grants);
    case RevokeGrant(_, _) => assert GrantsPlaced(d.scopes, d.principals, d.grants);
  }

  lemma TenantPlaced(db: Database, t: PeopleOps.Tenant)
    requires Placed(db) && PeopleOps.OrganisationCreated(db, t).Ok?
    ensures Placed(PeopleOps.OrganisationCreated(db, t).value)
  {
    hide ScopeOps.PersonalEnsured, PeopleOps.NameOrTokenTaken, Placed;
    var d := db.(used := db.used + {t.org, t.root, t.admin},
                 orgs := db.orgs[t.org := t.name],
                 scopes := db.scopes[t.root := Scope(t.org, None, t.name, Organisation)],
                 principals := db.principals[t.admin := Principal(t.org, t.adminName, t.digest, true, true, t.now)]);
    RootPlaced(db, t, d);
    PersonalPlaced(d, t.admin, t.personal);
  }

  lemma RootPlaced(db: Database, t: PeopleOps.Tenant, d: Database)
    requires Placed(db) && t.root !in db.used && t.admin !in db.used
    requires d == db.(used := db.used + {t.org, t.root, t.admin},
                      orgs := db.orgs[t.org := t.name],
                      scopes := db.scopes[t.root := Scope(t.org, None, t.name, Organisation)],
                      principals := db.principals[t.admin := Principal(t.org, t.adminName, t.digest, true, true, t.now)])
    ensures Placed(d)
  {
    hide PayloadPlaced, AccessPlaced, Grew, Known;
    RootKnown(db, t, d);
    PayloadGrew(db, d);
    PayloadSame(db, d, d.scopes);
    AccessGrew(db, d);
  }

  lemma RootKnown(db: Database, t: PeopleOps.Tenant, d: Database)
    requires Known(db) && t.root !in db.used && t.admin !in db.used
    requires d.used == db.used + {t.org, t.root, t.admin}
    requires d.scopes == db.scopes[t.root := Scope(t.org, None, t.name, Organisation)]
    requires d.principals == db.principals[t.admin := Principal(t.org, t.adminName, t.digest, true, true, t.now)]
    requires d.proposals == db.proposals && d.messages == db.messages && d.jobs == db.jobs
    ensures Known(d) && Grew(db, d)
  {
  }

  lemma PayloadSame(a: Database, b: Database, scopes: Scopes)
    requires b.locks == a.locks && b.records == a.records && b.versions == a.versions
    requires b.proposals == a.proposals && b.messages == a.messages && b.jobs == a.jobs
    ensures PayloadPlaced(b, scopes) == PayloadPlaced(a, scopes)
  {
  }

  // ---------------------------------------------------------------- old scopes stay as they are

  ghost predicate ScopesGrew(before: Scopes, after: Scopes) {
    forall s :: s in before ==> s in after && after[s] == before[s]
  }

  lemma PersonalGrows(db: Database, p: Id, id: Id)
    requires Known(db) && p in db.principals && ScopeOps.PersonalEnsured(db, p, id).Ok?
    ensures ScopesGrew(db.scopes, ScopeOps.PersonalEnsured(db, p, id).value.scopes)
  {
    hide ScopeOps.HasPersonal;
  }

  lemma PeopleGrow(cfg: Config, db: Database, a: Id, op: PeopleOps.PeopleOp)
    requires Known(db) && a in db.principals && PeopleOps.Performed(cfg, db, a, op).Ok?
    ensures ScopesGrew(db.scopes, PeopleOps.Performed(cfg, db, a, op).value.scopes)
  {
    hide RequireRole, Meter.Admitted, PeopleOps.ActiveAdmins, PeopleOps.NameOrTokenTaken, ScopeOps.PersonalEnsured;
    if op.CreatePrincipal? {
      var row := Principal(db.principals[a].org, op.name, op.digest, false, true, op.now);
      var d := PeopleOps.Performed(cfg, db, a, op).value;
      PersonalGrows(db.(used := db.used + {op.id}, principals := db.principals[op.id := row], usage := d.usage), op.id, op.personal);
    }
  }

  lemma TenantGrows(db: Database, t: PeopleOps.Tenant)
    requires Known(db) && PeopleOps.OrganisationCreated(db, t).Ok?
    ensures ScopesGrew(db.scopes, PeopleOps.OrganisationCreated(db, t).value.scopes)
  {
    hide PeopleOps.NameOrTokenTaken, ScopeOps.PersonalEnsured;
    var d := db.(used := db.used + {t.org, t.root, t.admin},
                 orgs := db.orgs[t.org := t.name],
                 scopes := db.scopes[t.root := Scope(t.org, None, t.name, Organisation)],
                 principals := db.principals[t.admin := Principal(t.org, t.adminName, t.digest, true, true, t.now)]);
    assert ScopesGrew(db.scopes, d.scopes);
    PersonalGrows(d, t.admin, t.personal);
  }

  // ---------------------------------------------------------------- memory, messages, jobs

  lemma SettledPlaced(db: Database, pid: Id, status: ProposalStatus, reviewer: Id)
    requires Placed(db) && pid in db.proposals
    ensures Placed(MemoryOps.Settled(db, pid, status, reviewer))
  {
    var d := MemoryOps.Settled(db, pid, status, reviewer);
    assert ProposalsPlaced(d.scopes, d.proposals);
  }

  lemma PromotedPlaced(db: Database, pid: Id)
    requires Placed(db) && pid in db.proposals
    ensures Placed(MemoryOps.Promoted(db, pid))
  {
    var d := MemoryOps.Promoted(db, pid);
    assert RecordsPlaced(d.scopes, d.records);
    assert VersionsPlaced(d.scopes, d.versions);
  }

  lemma ReviewedPlaced(cfg: Config, db: Database, a: Id, op: MemoryOps.MemoryOp)
    requires Placed(db) && a in db.principals && op.Review? && MemoryOps.Reviewed(cfg, db, a, op).Ok?
    ensures Placed(MemoryOps.Reviewed(cfg, db, a, op).value)
  {
    hide Meter.Charged, MemoryOps.Settled, MemoryOps.Promoted, RequireRole;
    var p := db.proposals[op.proposal];
    var held := db.(locks := db.locks + {(p.scope, p.key)});
    assert LocksPlaced(held.scopes, held.locks) by { assert Lives(db.scopes, p.scope, p.org); }
    SettledPlaced(db, op.proposal, Rejected, a);
    SettledPlaced(held, op.proposal, Conflicted, a);
    if op.accept && !p.quarantined && p.expected == MemoryOps.CurrentVersion(db, p.scope, p.key) {
      var charged := Meter.Charged(cfg, held, p.org, Bytes(p.content) + Bytes(p.source)).value;
      SettledPlaced(charged, op.proposal, Accepted, a);
      assert MemoryOps.Settled(charged, op.proposal, Accepted, a).proposals.Keys == db.proposals.Keys by { SettledKeys(charged, op.proposal, a); }
      PromotedPlaced(MemoryOps.Settled(charged, op.proposal, Accepted, a), op.proposal);
    }
  }

  lemma SettledKeys(db: Database, pid: Id, a: Id)
    requires pid in db.proposals
    ensures MemoryOps.Settled(db, pid, Accepted, a).proposals.Keys == db.proposals.Keys
  {
  }

  lemma ProposedPlaced(cfg: Config, db: Database, a: Id, op: MemoryOps.MemoryOp)
    requires Placed(db) && a in db.principals && op.Propose? && MemoryOps.Proposed(cfg, db, a, op).Ok?
    ensures Placed(MemoryOps.Proposed(cfg, db, a, op).value)
  {
    hide Meter.Charged, RequireRole, MemoryOps.MemoryFindings, ProposalBytes, AccessPlaced;
    var d := MemoryOps.Proposed(cfg, db, a, op).value;
    assert ProposalsPlaced(d.scopes, d.proposals);
  }

  lemma SentPlaced(cfg: Config, db: Database, a: Id, op: MemoryOps.MemoryOp)
    requires Placed(db) && a in db.principals && op.Send? && MemoryOps.Sent(cfg, db, a, op).Ok?
    ensures Placed(MemoryOps.Sent(cfg, db, a, op).value)
  {
    hide Meter.Charged, RequireRole, RoleFor, MessageBytes, AccessPlaced;
    var d := MemoryOps.Sent(cfg, db, a, op).value;
    assert MessagesPlaced(d.scopes, d.messages);
  }

  lemma KeyDeletedPlaced(cfg: Config, db: Database, a: Id, op: MemoryOps.MemoryOp)
    requires Placed(db) && a in db.principals && op.DeleteKey? && MemoryOps.KeyDeleted(cfg, db, a, op).Ok?
    ensures Placed(MemoryOps.KeyDeleted(cfg, db, a, op).value)
  {
    hide Meter.Recounted, RequireRole, Permitted, MemoryOps.KeyExists, AccessPlaced;
    var d := MemoryOps.KeyPurged(db, db.principals[a].org, op.scope, op.key);
    assert RecordsPlaced(d.scopes, d.records) && VersionsPlaced(d.scopes, d.versions) && ProposalsPlaced(d.scopes, d.proposals);
  }

  lemma MemoryOpPlaced(cfg: Config, db: Database, a: Id, op: MemoryOps.MemoryOp)
    requires Placed(db) && a in db.principals && MemoryOps.Performed(cfg, db, a, op).Ok?
    ensures Placed(MemoryOps.Performed(cfg, db, a, op).value)
  {
    hide Placed, MemoryOps.Proposed, MemoryOps.Reviewed, MemoryOps.KeyDeleted, MemoryOps.Sent;
    match op
    case Propose(_, _, _, _, _, _, _) => ProposedPlaced(cfg, db, a, op);
    case Review(_, _) => ReviewedPlaced(cfg, db, a, op);
    case DeleteKey(_, _) => KeyDeletedPlaced(cfg, db, a, op);
    case Send(_, _, _, _) => SentPlaced(cfg, db, a, op);
  }

  lemma JobCreatedPlaced(cfg: Config, db: Database, a: Id, op: JobOps.JobOp)
    requires Placed(db) && a in db.principals && op.CreateJob? && JobOps.JobCreated(cfg, db, a, op).Ok?
    ensures Placed(JobOps.JobCreated(cfg, db, a, op).value)
  {
    hide Meter.Charged, RequireRole, RoleFor, JobOps.JobFindings, JobOps.Replayed, JobOps.SamePayload, JobBytes;
    var d := JobOps.JobCreated(cfg, db, a, op).value;
    assert JobsPlaced(d.scopes, d.jobs);
  }

  lemma JobSubmittedPlaced(cfg: Config, db: Database, a: Id, op: JobOps.JobOp)
    requires Placed(db) && a in db.principals && op.Submit? && JobOps.JobSubmitted(cfg, db, a, op).Ok?
    ensures Placed(JobOps.JobSubmitted(cfg, db, a, op).value)
  {
    hide Meter.Charged, JobOps.Fenced, FindingsBytes, Bytes, PayloadScan.Findings, AccessPlaced, LocksPlaced, RecordsPlaced,
         VersionsPlaced, ProposalsPlaced, MessagesPlaced;
    FencedJob(db, a, op.job, op.token, op.now);
    var d := JobOps.JobSubmitted(cfg, db, a, op).value;
    assert JobsPlaced(d.scopes, d.jobs);
  }

  /** A job that passes the fence is a job of the caller's organisation, as it is stored. */
  lemma FencedJob(db: Database, a: Id, j: Id, token: string, now: int)
    requires a in db.principals && JobOps.Fenced(db, a, j, token, now).Ok?
    ensures j in db.jobs && JobOps.Fenced(db, a, j, token, now).value == db.jobs[j] && db.jobs[j].org == db.principals[a].org
  {
    hide RequireRole;
  }

  lemma JobOpPlaced(cfg: Config, db: Database, a: Id, op: JobOps.JobOp)
    requires Placed(db) && a in db.principals && JobOps.Performed(cfg, db, a, op).Ok?
    ensures Placed(JobOps.Performed(cfg, db, a, op).value)
  {
    hide JobOps.JobCreated, JobOps.JobSubmitted, RequireRole, RoleFor, JobOps.Expired, AtLeast, AccessPlaced, LocksPlaced,
         RecordsPlaced, VersionsPlaced, ProposalsPlaced, MessagesPlaced;
    var d := JobOps.Performed(cfg, db, a, op).value;
    if op.CreateJob? { JobCreatedPlaced(cfg, db, a, op); }
    else if op.Submit? { JobSubmittedPlaced(cfg, db, a, op); }
    else { assert JobsPlaced(d.scopes, d.jobs); }
  }

  // ---------------------------------------------------------------- every step

  lemma DispatchPlaced(cfg: Config, db: Database, who: Identity, op: Op)
    requires Placed(db) && Dispatched(cfg, db, who, op).Ok?
    ensures Placed(Dispatched(cfg, db, who, op).value)
  {
    hide Placed, ScopeOps.Performed, PeopleOps.Performed, MemoryOps.Performed, JobOps.Performed, SlotOps.Performed;
    match op
    case OnScopes(o) => ScopeOpPlaced(cfg, db, who.id, o);
    case OnPeople(o) => PeopleOpPlaced(cfg, db, who.id, o);
    case OnMemory(o) => MemoryOpPlaced(cfg, db, who.id, o);
    case OnJobs(o) => JobOpPlaced(cfg, db, who.id, o);
    case OnSlots(o) => SlotOpPlaced(cfg, db, who.id, o);
  }

  lemma SlotOpPlaced(cfg: Config, db: Database, a: Id, op: SlotOps.SlotOp)
    requires Placed(db) && a in db.principals && SlotOps.Performed(cfg, db, a, op).Ok?
    ensures Placed(SlotOps.Performed(cfg, db, a, op).value)
  {
    hide SlotOps.Performed;
    SlotFrame(cfg, db, a, op);
  }

  lemma StepPlaced(cfg: Config, db: Database, call: Call)
    requires Placed(db)
    ensures Placed(Step(cfg, db, call))
  {
    hide Dispatched, PeopleOps.OrganisationCreated;
    match call
    case Dispatch(who, op) => if Dispatched(cfg, db, who, op).Ok? { DispatchPlaced(cfg, db, who, op); }
    case NewOrganisation(t) => if PeopleOps.OrganisationCreated(db, t).Ok? { TenantPlaced(db, t); }
    case Recalculate(_) =>
    case BillingAuthority(_) =>
  }
}
