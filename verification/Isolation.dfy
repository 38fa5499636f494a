/** Tenants do not see each other's steps, and a personal scope is its owner's alone. */
module IsolationProofs {
  import opened Base
  import opened Tables
  import opened ScopeTree
  import opened PlacementProofs
  import ScopeOps
  import PeopleOps
  import MemoryOps
  import JobOps
  import SlotOps
  import Meter
  import PayloadScan
  import opened Workspace

  // ---------------------------------------------------------------- the rows of one organisation

  // The rows of organisation `o` are the same in two versions of a table.

  ghost predicate PrincipalsKept(before: map<Id, Principal>, after: map<Id, Principal>, o: Id) {
    && (forall k :: k in before && before[k].org == o ==> k in after && after[k] == before[k])
    && (forall k :: k in after && after[k].org == o ==> k in before && before[k] == after[k])
  }

  ghost predicate ScopesKept(before: map<Id, Scope>, after: map<Id, Scope>, o: Id) {
    && (forall k :: k in before && before[k].org == o ==> k in after && after[k] == before[k])
    && (forall k :: k in after && after[k].org == o ==> k in before && before[k] == after[k])
  }

  ghost predicate OwnersKept(before: map<Id, Owner>, after: map<Id, Owner>, o: Id) {
    && (forall k :: k in before && before[k].org == o ==> k in after && after[k] == before[k])
    && (forall k :: k in after && after[k].org == o ==> k in before && before[k] == after[k])
  }

  ghost predicate PoliciesKept(before: map<(Id, Id), Policy>, after: map<(Id, Id), Policy>, o: Id) {
    && (forall k :: k in before && before[k].org == o ==> k in after && after[k] == before[k])
    && (forall k :: k in after && after[k].org == o ==> k in before && before[k] == after[k])
  }

  ghost predicate GrantsKept(before: map<(Id, Id), Grant>, after: map<(Id, Id), Grant>, o: Id) {
    && (forall k :: k in before && before[k].org == o ==> k in after && after[k] == before[k])
    && (forall k :: k in after && after[k].org == o ==> k in before && before[k] == after[k])
  }

  ghost predicate RecordsKept(before: map<(Id, string), Record>, after: map<(Id, string), Record>, o: Id) {
    && (forall k :: k in before && before[k].org == o ==> k in after && after[k] == before[k])
    && (forall k :: k in after && after[k].org == o ==> k in before && before[k] == after[k])
  }

  ghost predicate VersionsKept(before: map<(Id, string, nat), Version>, after: map<(Id, string, nat), Version>, o: Id) {
    && (forall k :: k in before && before[k].org == o ==> k in after && after[k] == before[k])
    && (forall k :: k in after && after[k].org == o ==> k in before && before[k] == after[k])
  }

  ghost predicate ProposalsKept(before: map<Id, Proposal>, after: map<Id, Proposal>, o: Id) {
    && (forall k :: k in before && before[k].org == o ==> k in after && after[k] == before[k])
    && (forall k :: k in after && after[k].org == o ==> k in before && before[k] == after[k])
  }

  ghost predicate MessagesKept(before: map<Id, Message>, after: map<Id, Message>, o: Id) {
    && (forall k :: k in before && before[k].org == o ==> k in after && after[k] == before[k])
    && (forall k :: k in after && after[k].org == o ==> k in before && before[k] == after[k])
  }

  ghost predicate JobsKept(before: map<Id, Job>, after: map<Id, Job>, o: Id) {
    && (forall k :: k in before && before[k].org == o ==> k in after && after[k] == before[k])
    && (forall k :: k in after && after[k].org == o ==> k in before && before[k] == after[k])
  }

  ghost predicate InstancesKept(before: map<Id, Instance>, after: map<Id, Instance>, o: Id) {
    && (forall k :: k in before && before[k].org == o ==> k in after && after[k] == before[k])
    && (forall k :: k in after && after[k].org == o ==> k in before && before[k] == after[k])
  }

  ghost predicate ConnectionsKept(before: map<Id, Connection>, after: map<Id, Connection>, o: Id) {
    && (forall k :: k in before && before[k].org == o ==> k in after && after[k] == before[k])
    && (forall k :: k in after && after[k].org == o ==> k in before && before[k] == after[k])
  }

  ghost predicate LocksKept(scopes: Scopes, before: set<(Id, string)>, after: set<(Id, string)>, o: Id) {
    forall l :: l in before + after && Lives(scopes, l.0, o) ==> l in before && l in after
  }

  ghost predicate UsageKept(before: map<Id, int>, after: map<Id, int>, o: Id) {
    (o in before <==> o in after) && (o in before ==> after[o] == before[o])
  }

  ghost predicate AccountKept(before: map<Id, Account>, after: map<Id, Account>, o: Id) {
    (o in before <==> o in after) && (o in before ==> after[o] == before[o])
  }

  ghost predicate SameAccess(before: Database, after: Database, o: Id) {
    && PrincipalsKept(before.principals, after.principals, o)
    && ScopesKept(before.scopes, after.scopes, o)
    && OwnersKept(before.owners, after.owners, o)
    && PoliciesKept(before.policies, after.policies, o)
    && GrantsKept(before.grants, after.grants, o)
  }

  ghost predicate SameMemory(before: Database, after: Database, o: Id) {
    && RecordsKept(before.records, after.records, o)
    && VersionsKept(before.versions, after.versions, o)
    && ProposalsKept(before.proposals, after.proposals, o)
    && LocksKept(before.scopes, before.locks, after.locks, o)
  }

  ghost predicate SameTraffic(before: Database, after: Database, o: Id) {
    MessagesKept(before.messages, after.messages, o) && JobsKept(before.jobs, after.jobs, o)
  }

  ghost predicate SameSlots(before: Database, after: Database, o: Id) {
    && InstancesKept(before.instances, after.instances, o)
    && ConnectionsKept(before.connections, after.connections, o)
    && UsageKept(before.usage, after.usage, o)
    && AccountKept(before.accounts, after.accounts, o)
  }

  /** No row of the organisation changed, appeared or vanished. */
  ghost predicate SameTenant(before: Database, after: Database, o: Id) {
    SameAccess(before, after, o) && SameMemory(before, after, o) && SameTraffic(before, after, o) && SameSlots(before, after, o)
  }

  /** A table that did not change keeps the rows of every organisation. */
  lemma Kept(before: Database, after: Database, o: Id)
    requires after.principals == before.principals || PrincipalsKept(before.principals, after.principals, o)
    requires after.scopes == before.scopes || ScopesKept(before.scopes, after.scopes, o)
    requires after.owners == before.owners || OwnersKept(before.owners, after.owners, o)
    requires after.policies == before.policies || PoliciesKept(before.policies, after.policies, o)
    requires after.grants == before.grants || GrantsKept(before.grants, after.grants, o)
    requires after.records == before.records || RecordsKept(before.records, after.records, o)
    requires after.versions == before.versions || VersionsKept(before.versions, after.versions, o)
    requires after.proposals == before.proposals || ProposalsKept(before.proposals, after.proposals, o)
    requires after.messages == before.messages || MessagesKept(before.messages, after.messages, o)
    requires after.jobs == before.jobs || JobsKept(before.jobs, after.jobs, o)
    requires after.instances == before.instances || InstancesKept(before.instances, after.instances, o)
    requires after.connections == before.connections || ConnectionsKept(before.connections, after.connections, o)
    requires after.usage == before.usage || UsageKept(before.usage, after.usage, o)
    requires after.accounts == before.accounts || AccountKept(before.accounts, after.accounts, o)
    requires after.locks == before.locks || LocksKept(before.scopes, before.locks, after.locks, o)
    ensures SameTenant(before, after, o)
  {
  }

  lemma AccessThrough(before: Database, middle: Database, after: Database, o: Id)
    requires SameAccess(before, middle, o) && SameAccess(middle, after, o)
    ensures SameAccess(before, after, o)
  {
  }

  lemma MemoryThrough(before: Database, middle: Database, after: Database, o: Id)
    requires ScopesKept(before.scopes, middle.scopes, o) && SameMemory(before, middle, o) && SameMemory(middle, after, o)
    ensures SameMemory(before, after, o)
  {
  }

  lemma TrafficThrough(before: Database, middle: Database, after: Database, o: Id)
    requires SameTraffic(before, middle, o) && SameTraffic(middle, after, o)
    ensures SameTraffic(before, after, o)
  {
  }

  lemma SlotsThrough(before: Database, middle: Database, after: Database, o: Id)
    requires SameSlots(before, middle, o) && SameSlots(middle, after, o)
    ensures SameSlots(before, after, o)
  {
  }

  /** What two changes leave alone, both together leave alone. */
  lemma Through(before: Database, middle: Database, after: Database, o: Id)
    requires SameTenant(before, middle, o) && SameTenant(middle, after, o)
    ensures SameTenant(before, after, o)
  {
    hide SameMemory, SameTraffic, SameSlots, ScopesKept, OwnersKept, PoliciesKept, GrantsKept, PrincipalsKept;
    AccessThrough(before, middle, after, o);
    MemoryThrough(before, middle, after, o);
    TrafficThrough(before, middle, after, o);
    SlotsThrough(before, middle, after, o);
  }

  // ---------------------------------------------------------------- elementary changes

  lemma ChargedElsewhere(cfg: Config, db: Database, org: Id, n: nat, o: Id)
    requires o != org && Meter.Charged(cfg, db, org, n).Ok?
    ensures SameTenant(db, Meter.Charged(cfg, db, org, n).value, o)
  {
    hide Meter.Charged, UsageKept, SameTenant;
    ChargedUsage(cfg, db, org, n, o);
    Kept(db, Meter.Charged(cfg, db, org, n).value, o);
  }

  lemma UsageWritten(usage: map<Id, int>, org: Id, n: int, o: Id)
    requires o != org
    ensures UsageKept(usage, usage[org := n], o)
  {
  }

  lemma ChargedUsage(cfg: Config, db: Database, org: Id, n: nat, o: Id)
    requires o != org && Meter.Charged(cfg, db, org, n).Ok?
    ensures UsageKept(db.usage, Meter.Charged(cfg, db, org, n).value.usage, o)
  {
    hide UsageKept, Recount, Meter.LimitsFor, Meter.UsageLocked;
    var locked := Meter.UsageLocked(db, org);
    LockedUsage(db, org, o);
    var d := Meter.Charged(cfg, db, org, n).value;
    if !cfg.metered || n == 0 {
      assert d == db;
      UsageAgain(db.usage, db.usage, locked.usage, o);
    } else {
      assert d == locked.(usage := locked.usage[org := locked.usage[org] + n]);
      UsageWritten(locked.usage, org, locked.usage[org] + n, o);
      UsageAgain(db.usage, locked.usage, d.usage, o);
    }
  }

  lemma LockedUsage(db: Database, org: Id, o: Id)
    requires o != org
    ensures var locked := Meter.UsageLocked(db, org).usage; org in locked && UsageKept(db.usage, locked, o)
  {
    hide UsageKept, Recount;
    UsageWritten(db.usage, org, Recount(db, org), o);
    UsageAgain(db.usage, db.usage, db.usage[org := Recount(db, org)], o);
  }

  lemma UsageAgain(before: map<Id, int>, middle: map<Id, int>, after: map<Id, int>, o: Id)
    requires (middle == before || UsageKept(before, middle, o)) && UsageKept(middle, after, o)
    ensures UsageKept(before, before, o) && UsageKept(before, after, o)
  {
  }

  lemma AdmittedElsewhere(cfg: Config, db: Database, org: Id, count: nat, ceiling: Option<nat>, o: Id)
    requires o != org && Meter.Admitted(cfg, db, org, count, ceiling).Ok?
    ensures SameTenant(db, Meter.Admitted(cfg, db, org, count, ceiling).value, o)
  {
    hide Recount, Meter.Below, SameTenant;
    Kept(db, Meter.Admitted(cfg, db, org, count, ceiling).value, o);
  }

  lemma RecountedElsewhere(cfg: Config, db: Database, org: Id, o: Id)
    requires o != org
    ensures SameTenant(db, Meter.Recounted(cfg, db, org), o)
  {
    hide Recount, SameTenant;
    Kept(db, Meter.Recounted(cfg, db, org), o);
  }

  lemma ScopeAddedElsewhere(db: Database, id: Id, row: Scope, owner: Id, o: Id)
    requires db.scopes.Keys <= db.used && OwnersPlaced(db.scopes, db.principals, db.owners) && id !in db.used && row.org != o
    ensures SameTenant(db, ScopeOps.ScopeAdded(db, id, row, owner), o)
  {
    hide SameTenant, ScopesKept, OwnersKept, OwnersPlaced;
    NewScopeKept(db.scopes, id, row, o);
    NewOwnerKept(db, id, Owner(row.org, owner), o);
    Kept(db, ScopeOps.ScopeAdded(db, id, row, owner), o);
  }

  lemma NewScopeKept(scopes: Scopes, id: Id, row: Scope, o: Id)
    requires id !in scopes && row.org != o
    ensures ScopesKept(scopes, scopes[id := row], o)
  {
  }

  lemma NewOwnerKept(db: Database, id: Id, row: Owner, o: Id)
    requires OwnersPlaced(db.scopes, db.principals, db.owners) && id !in db.scopes && row.org != o
    ensures OwnersKept(db.owners, db.owners[id := row], o)
  {
    assert id in db.owners ==> Lives(db.scopes, id, db.owners[id].org);
  }

  lemma OwnerWritten(db: Database, sid: Id, row: Owner, o: Id)
    requires OwnersPlaced(db.scopes, db.principals, db.owners) && Lives(db.scopes, sid, row.org) && row.org != o
    ensures SameTenant(db, db.(owners := db.owners[sid := row]), o)
  {
    hide SameTenant;
    assert sid in db.owners ==> Lives(db.scopes, sid, db.owners[sid].org);
    assert OwnersKept(db.owners, db.owners[sid := row], o);
    Kept(db, db.(owners := db.owners[sid := row]), o);
  }

  lemma PolicyWritten(db: Database, sid: Id, p: Id, row: Policy, o: Id)
    requires PoliciesPlaced(db.scopes, db.principals, db.policies) && Lives(db.scopes, sid, row.org) && row.org != o
    ensures SameTenant(db, db.(policies := db.policies[(sid, p) := row]), o)
  {
    hide SameTenant;
    assert (sid, p) in db.policies ==> Lives(db.scopes, sid, db.policies[(sid, p)].org);
    assert PoliciesKept(db.policies, db.policies[(sid, p) := row], o);
    Kept(db, db.(policies := db.policies[(sid, p) := row]), o);
  }

  lemma GrantWritten(db: Database, p: Id, sid: Id, row: Grant, o: Id)
    requires GrantsPlaced(db.scopes, db.principals, db.grants) && Lives(db.scopes, sid, row.org) && row.org != o
    ensures SameTenant(db, db.(grants := db.grants[(p, sid) := row]), o)
    ensures SameTenant(db, db.(grants := db.grants - {(p, sid)}), o)
  {
    hide SameTenant;
    assert (p, sid) in db.grants ==> Lives(db.scopes, sid, db.grants[(p, sid)].org);
    assert GrantsKept(db.grants, db.grants[(p, sid) := row], o);
    assert GrantsKept(db.grants, db.grants - {(p, sid)}, o);
    Kept(db, db.(grants := db.grants[(p, sid) := row]), o);
    Kept(db, db.(grants := db.grants - {(p, sid)}), o);
  }

  lemma PrincipalWritten(db: Database, used: set<Id>, id: Id, row: Principal, o: Id)
    requires row.org != o && (id in db.principals ==> db.principals[id].org != o)
    ensures SameTenant(db, db.(used := used, principals := db.principals[id := row]), o)
  {
    hide SameTenant;
    assert PrincipalsKept(db.principals, db.principals[id := row], o);
    Kept(db, db.(used := used, principals := db.principals[id := row]), o);
  }

  lemma ProposalWritten(db: Database, used: set<Id>, id: Id, row: Proposal, o: Id)
    requires row.org != o && (id in db.proposals ==> db.proposals[id].org != o)
    ensures SameTenant(db, db.(used := used, proposals := db.proposals[id := row]), o)
  {
    hide SameTenant;
    assert ProposalsKept(db.proposals, db.proposals[id := row], o);
    Kept(db, db.(used := used, proposals := db.proposals[id := row]), o);
  }

  lemma MessageWritten(db: Database, used: set<Id>, id: Id, row: Message, o: Id)
    requires row.org != o && (id in db.messages ==> db.messages[id].org != o)
    ensures SameTenant(db, db.(used := used, messages := db.messages[id := row]), o)
  {
    hide SameTenant;
    assert MessagesKept(db.messages, db.messages[id := row], o);
    Kept(db, db.(used := used, messages := db.messages[id := row]), o);
  }

  lemma JobWritten(db: Database, used: set<Id>, id: Id, row: Job, o: Id)
    requires row.org != o && (id in db.jobs ==> db.jobs[id].org != o)
    ensures SameTenant(db, db.(used := used, jobs := db.jobs[id := row]), o)
  {
    hide SameTenant;
    assert JobsKept(db.jobs, db.jobs[id := row], o);
    Kept(db, db.(used := used, jobs := db.jobs[id := row]), o);
  }

  lemma InstanceWritten(db: Database, used: set<Id>, id: Id, row: Instance, o: Id)
    requires row.org != o && (id in db.instances ==> db.instances[id].org != o)
    ensures SameTenant(db, db.(used := used, instances := db.instances[id := row]), o)
  {
    hide SameTenant;
    assert InstancesKept(db.instances, db.instances[id := row], o);
    Kept(db, db.(used := used, instances := db.instances[id := row]), o);
  }

  lemma ConnectionWritten(db: Database, used: set<Id>, id: Id, row: Connection, o: Id)
    requires row.org != o && (id in db.connections ==> db.connections[id].org != o)
    ensures SameTenant(db, db.(used := used, connections := db.connections[id := row]), o)
  {
    hide SameTenant;
    assert ConnectionsKept(db.connections, db.connections[id := row], o);
    Kept(db, db.(used := used, connections := db.connections[id := row]), o);
  }

  lemma LockTaken(db: Database, sid: Id, key: string, org: Id, o: Id)
    requires Lives(db.scopes, sid, org) && o != org
    ensures SameTenant(db, db.(locks := db.locks + {(sid, key)}), o)
  {
    hide SameTenant;
    assert LocksKept(db.scopes, db.locks, db.locks + {(sid, key)}, o);
    Kept(db, db.(locks := db.locks + {(sid, key)}), o);
  }

  lemma RetainedElsewhere(db: Database, org: Id, chain: seq<Id>, destination: Id, o: Id)
    requires PoliciesPlaced(db.scopes, db.principals, db.policies) && Lives(db.scopes, destination, org) && o != org
    ensures SameTenant(db, db.(policies := ScopeOps.Retained(db.policies, org, chain, destination)), o)
  {
    hide ChainAllows, ScopeOps.Restricted, SameTenant;
    var after := ScopeOps.Retained(db.policies, org, chain, destination);
    forall k | k in after && (k !in db.policies || after[k] != db.policies[k])
      ensures after[k].org == org && (k in db.policies ==> db.policies[k].org == org)
    {
      assert k.0 == destination;
      if k in db.policies { assert Lives(db.scopes, k.0, db.policies[k].org); }
    }
    assert db.policies.Keys <= after.Keys;
    assert PoliciesKept(db.policies, after, o);
    Kept(db, db.(policies := after), o);
  }

  lemma ReparentedElsewhere(db: Database, sid: Id, parent: Id, org: Id, o: Id)
    requires Lives(db.scopes, sid, org) && o != org
    ensures SameTenant(db, db.(scopes := db.scopes[sid := db.scopes[sid].(parent := Some(parent))]), o)
  {
    hide SameTenant;
    var after := db.scopes[sid := db.scopes[sid].(parent := Some(parent))];
    assert ScopesKept(db.scopes, after, o);
    Kept(db, db.(scopes := after), o);
  }

  lemma AdoptedElsewhere(db: Database, source: Id, target: Id, org: Id, o: Id)
    requires ParentsHome(db.scopes) && Lives(db.scopes, source, org) && o != org
    ensures SameTenant(db, db.(scopes := ScopeOps.Adopted(db.scopes, source, target)), o)
  {
    hide SameTenant;
    assert ScopesKept(db.scopes, ScopeOps.Adopted(db.scopes, source, target), o);
    Kept(db, db.(scopes := ScopeOps.Adopted(db.scopes, source, target)), o);
  }

  /** Removing a scope removes only rows of its own organisation. */
  lemma DroppedElsewhere(db: Database, sid: Id, org: Id, o: Id)
    requires HasAccessPlaced(db) && Lives(db.scopes, sid, org) && o != org
    ensures SameTenant(db, ScopeOps.Dropped(db, sid), o)
  {
    hide SameTenant, Lives, AccessPlaced, OwnersKept, PoliciesKept, GrantsKept, ScopesKept, LocksKept;
    DroppedTables(db, sid, org, o);
    DroppedAccess(db, sid, org, o);
    Kept(db, ScopeOps.Dropped(db, sid), o);
  }

  lemma DroppedTables(db: Database, sid: Id, org: Id, o: Id)
    requires Lives(db.scopes, sid, org) && o != org
    ensures var d := ScopeOps.Dropped(db, sid); ScopesKept(db.scopes, d.scopes, o) && LocksKept(db.scopes, db.locks, d.locks, o)
  {
  }

  lemma DroppedAccess(db: Database, sid: Id, org: Id, o: Id)
    requires HasAccessPlaced(db) && Lives(db.scopes, sid, org) && o != org
    ensures var d := ScopeOps.Dropped(db, sid);
      OwnersKept(db.owners, d.owners, o) && PoliciesKept(db.policies, d.policies, o) && GrantsKept(db.grants, d.grants, o)
  {
    var d := ScopeOps.Dropped(db, sid);
    forall k | k in db.policies && k !in d.policies ensures db.policies[k].org == org { assert Lives(db.scopes, k.0, db.policies[k].org); }
    forall k | k in db.grants && k !in d.grants ensures db.grants[k].org == org { assert Lives(db.scopes, k.1, db.grants[k].org); }
    forall k | k in db.owners && k !in d.owners ensures db.owners[k].org == org { assert Lives(db.scopes, k, db.owners[k].org); }
  }

  lemma PurgedElsewhere(db: Database, org: Id, sid: Id, o: Id)
    requires o != org
    ensures SameTenant(db, ScopeOps.Purged(db, org, sid), o)
  {
    hide SameTenant, RecordsKept, VersionsKept, ProposalsKept, MessagesKept, JobsKept;
    PurgedMemory(db, org, sid, o);
    PurgedTraffic(db, org, sid, o);
    Kept(db, ScopeOps.Purged(db, org, sid), o);
  }

  lemma PurgedMemory(db: Database, org: Id, sid: Id, o: Id)
    requires o != org
    ensures var d := ScopeOps.Purged(db, org, sid);
      RecordsKept(db.records, d.records, o) && VersionsKept(db.versions, d.versions, o) && ProposalsKept(db.proposals, d.proposals, o)
  {
  }

  lemma PurgedTraffic(db: Database, org: Id, sid: Id, o: Id)
    requires o != org
    ensures var d := ScopeOps.Purged(db, org, sid); MessagesKept(db.messages, d.messages, o) && JobsKept(db.jobs, d.jobs, o)
  {
  }

  lemma KeyPurgedElsewhere(db: Database, org: Id, sid: Id, key: string, o: Id)
    requires o != org && Lives(db.scopes, sid, org)
    ensures SameTenant(db, MemoryOps.KeyPurged(db, org, sid, key), o)
  {
    hide SameTenant, RecordsKept, VersionsKept, ProposalsKept, LocksKept;
    KeyPurgedHistory(db, org, sid, key, o);
    KeyPurgedRest(db, org, sid, key, o);
    Kept(db, MemoryOps.KeyPurged(db, org, sid, key), o);
  }

  lemma KeyPurgedHistory(db: Database, org: Id, sid: Id, key: string, o: Id)
    requires o != org
    ensures var d := MemoryOps.KeyPurged(db, org, sid, key);
      RecordsKept(db.records, d.records, o) && VersionsKept(db.versions, d.versions, o)
  {
  }

  lemma KeyPurgedRest(db: Database, org: Id, sid: Id, key: string, o: Id)
    requires o != org && Lives(db.scopes, sid, org)
    ensures var d := MemoryOps.KeyPurged(db, org, sid, key);
      ProposalsKept(db.proposals, d.proposals, o) && LocksKept(db.scopes, db.locks, d.locks, o)
  {
  }

  // ---------------------------------------------------------------- a merge

  lemma RehomedRecordsElsewhere(db: Database, source: Id, target: Id, org: Id, o: Id)
    requires RecordsPlaced(db.scopes, db.records) && o != org && source != target
    requires Lives(db.scopes, source, org) && Lives(db.scopes, target, org)
    ensures RecordsKept(db.records, ScopeOps.Rehomed(db, source, target).records, o)
  {
    var after := ScopeOps.Rehomed(db, source, target).records;
    forall k | k in db.records && db.records[k].org == o ensures k in after && after[k] == db.records[k] {
      assert Lives(db.scopes, k.0, db.records[k].org);
      assert k == (ScopeOps.Home(source, target, k.0), k.1);
    }
    forall k | k in after && after[k].org == o ensures k in db.records && after[k] == db.records[k] {
      var q :| q in db.records && k == (ScopeOps.Home(source, target, q.0), q.1);
      assert Lives(db.scopes, q.0, db.records[q].org);
      assert k.0 != source;
      assert (source, k.1) in db.records ==> Lives(db.scopes, source, db.records[(source, k.1)].org);
    }
  }

  lemma RehomedVersionsElsewhere(db: Database, source: Id, target: Id, org: Id, o: Id)
    requires VersionsPlaced(db.scopes, db.versions) && o != org && source != target
    requires Lives(db.scopes, source, org) && Lives(db.scopes, target, org)
    ensures VersionsKept(db.versions, ScopeOps.Rehomed(db, source, target).versions, o)
  {
    var after := ScopeOps.Rehomed(db, source, target).versions;
    forall k | k in db.versions && db.versions[k].org == o ensures k in after && after[k] == db.versions[k] {
      assert Lives(db.scopes, k.0, db.versions[k].org);
      assert k == (ScopeOps.Home(source, target, k.0), k.1, k.2);
    }
    forall k | k in after && after[k].org == o ensures k in db.versions && after[k] == db.versions[k] {
      var q :| q in db.versions && k == (ScopeOps.Home(source, target, q.0), q.1, q.2);
      assert Lives(db.scopes, q.0, db.versions[q].org);
      assert k.0 != source;
      assert (source, k.1, k.2) in db.versions ==> Lives(db.scopes, source, db.versions[(source, k.1, k.2)].org);
    }
  }

  lemma RehomedProposalsElsewhere(db: Database, source: Id, target: Id, org: Id, o: Id)
    requires ProposalsPlaced(db.scopes, db.proposals) && o != org && Lives(db.scopes, source, org)
    ensures ProposalsKept(db.proposals, ScopeOps.Rehomed(db, source, target).proposals, o)
  {
    var d := ScopeOps.Rehomed(db, source, target);
    forall i | i in db.proposals && db.proposals[i].org == o ensures d.proposals[i] == db.proposals[i] {
      assert Lives(db.scopes, db.proposals[i].scope, o);
    }
  }

  lemma RehomedTrafficElsewhere(db: Database, source: Id, target: Id, org: Id, o: Id)
    requires MessagesPlaced(db.scopes, db.messages) && JobsPlaced(db.scopes, db.jobs) && o != org && Lives(db.scopes, source, org)
    ensures var d := ScopeOps.Rehomed(db, source, target); MessagesKept(db.messages, d.messages, o) && JobsKept(db.jobs, d.jobs, o)
  {
    var d := ScopeOps.Rehomed(db, source, target);
    forall i | i in db.messages && db.messages[i].org == o ensures d.messages[i] == db.messages[i] {
      assert Lives(db.scopes, db.messages[i].scope, o);
    }
    forall i | i in db.jobs && db.jobs[i].org == o ensures d.jobs[i] == db.jobs[i] {
      assert Lives(db.scopes, db.jobs[i].scope, o);
    }
  }

  lemma RehomedLocksElsewhere(db: Database, source: Id, target: Id, org: Id, o: Id)
    requires o != org && Lives(db.scopes, source, org) && Lives(db.scopes, target, org)
    ensures LocksKept(db.scopes, db.locks, ScopeOps.Rehomed(db, source, target).locks, o)
  {
    var d := ScopeOps.Rehomed(db, source, target);
    forall l | l in db.locks + d.locks && Lives(db.scopes, l.0, o) ensures l in db.locks && l in d.locks {
      assert l.0 != source && l.0 != target;
      if l in db.locks { assert l == (ScopeOps.Home(source, target, l.0), l.1); }
    }
  }

  /** Moving the rows of a department moves only rows of its own organisation. */
  lemma RehomedElsewhere(db: Database, source: Id, target: Id, org: Id, o: Id)
    requires PayloadPlaced(db, db.scopes) && o != org && source != target
    requires Lives(db.scopes, source, org) && Lives(db.scopes, target, org)
    ensures SameTenant(db, ScopeOps.Rehomed(db, source, target), o)
  {
    hide SameTenant, Lives, RecordsPlaced, VersionsPlaced, ProposalsPlaced, MessagesPlaced, JobsPlaced, LocksPlaced,
         ScopeOps.RehomedRecordKeys, ScopeOps.RehomedVersionKeys, RecordsKept, VersionsKept, ProposalsKept, MessagesKept, JobsKept, LocksKept;
    RehomedRecordsElsewhere(db, source, target, org, o);
    RehomedVersionsElsewhere(db, source, target, org, o);
    RehomedProposalsElsewhere(db, source, target, org, o);
    RehomedTrafficElsewhere(db, source, target, org, o);
    RehomedLocksElsewhere(db, source, target, org, o);
    Kept(db, ScopeOps.Rehomed(db, source, target), o);
  }

  lemma MergedElsewhere(db: Database, a: Id, op: ScopeOps.ScopeOp, o: Id)
    requires Placed(db) && ParentsHome(db.scopes)
    requires a in db.principals && op.Merge? && ScopeOps.Merged(db, a, op).Ok? && o != db.principals[a].org
    ensures SameTenant(db, ScopeOps.Merged(db, a, op).value, o)
  {
    hide Permitted, Chain, ScopeOps.Dropped, ScopeOps.Rehomed, ScopeOps.Adopted, ScopeOps.Retained, ScopeOps.ChildNamesCollide,
         ScopeOps.JobsCollide, ScopeOps.MemoryKeys, Placed, SameTenant, ParentsHome;
    var org := db.principals[a].org;
    var chain := Chain(db.scopes, op.source).value;
    var retained := db.(policies := ScopeOps.Retained(db.policies, org, chain, op.target));
    var adopted := retained.(scopes := ScopeOps.Adopted(db.scopes, op.source, op.target));
    var rehomed := ScopeOps.Rehomed(adopted, op.source, op.target);
    RetainedAll(db, org, chain, op.target);
    AdoptedPlaced(retained, op.source, op.target);
    AdoptedLives(db.scopes, op.source, op.target, op.source, org);
    AdoptedLives(db.scopes, op.source, op.target, op.target, org);
    RehomedPlaced(adopted, op.source, op.target, org);
    RetainedElsewhere(db, org, chain, op.target, o) by { PlacedParts(db); }
    AdoptedElsewhere(retained, op.source, op.target, org, o);
    RehomedElsewhere(adopted, op.source, op.target, org, o) by { PlacedParts(adopted); }
    RehomedScopesKept(adopted, op.source, op.target);
    DroppedElsewhere(rehomed, op.source, org, o) by { PlacedParts(rehomed); }
    Through(db, retained, adopted, o);
    Through(db, adopted, rehomed, o);
    Through(db, rehomed, ScopeOps.Dropped(rehomed, op.source), o);
  }

  lemma RehomedScopesKept(db: Database, source: Id, target: Id)
    ensures ScopeOps.Rehomed(db, source, target).scopes == db.scopes
  {
    hide ScopeOps.RehomedRecordKeys, ScopeOps.RehomedVersionKeys;
  }

  lemma PlacedParts(db: Database)
    requires Placed(db)
    ensures Known(db) && PayloadPlaced(db, db.scopes) && HasAccessPlaced(db)
    ensures OwnersPlaced(db.scopes, db.principals, db.owners)
    ensures PoliciesPlaced(db.scopes, db.principals, db.policies)
    ensures GrantsPlaced(db.scopes, db.principals, db.grants)
  {
  }

  // ---------------------------------------------------------------- scopes

  lemma CreatedElsewhere(db: Database, a: Id, op: ScopeOps.ScopeOp, o: Id)
    requires Placed(db) && a in db.principals && op.CreateScope? && ScopeOps.Created(db, a, op).Ok? && o != db.principals[a].org
    ensures SameTenant(db, ScopeOps.Created(db, a, op).value, o)
  {
    hide RequireRole, ScopeOps.NameTaken, Placed, SameTenant, ScopeOps.ScopeAdded;
    PlacedParts(db);
    ScopeAddedElsewhere(db, op.id, Scope(db.principals[a].org, Some(op.parent), op.name, op.kind), a, o);
  }

  lemma PersonalElsewhere(db: Database, p: Id, id: Id, o: Id)
    requires db.scopes.Keys <= db.used && OwnersPlaced(db.scopes, db.principals, db.owners)
    requires p in db.principals && ScopeOps.PersonalEnsured(db, p, id).Ok? && o != db.principals[p].org
    ensures SameTenant(db, ScopeOps.PersonalEnsured(db, p, id).value, o)
  {
    hide ScopeOps.HasPersonal, SameTenant, ScopeOps.ScopeAdded, OwnersPlaced;
    if ScopeOps.HasPersonal(db, p) { Kept(db, db, o); }
    else { ScopeAddedElsewhere(db, id, Scope(db.principals[p].org, None, "Personal memory", Personal), p, o); }
  }

  lemma MovedElsewhere(db: Database, a: Id, op: ScopeOps.ScopeOp, o: Id)
    requires Placed(db) && a in db.principals && op.Move? && ScopeOps.Moved(db, a, op).Ok? && o != db.principals[a].org
    ensures SameTenant(db, ScopeOps.Moved(db, a, op).value, o)
  {
    hide Chain, RequireRole, ScopeOps.NameTaken, ScopeOps.Retained, Placed, SameTenant;
    var org := db.principals[a].org;
    PlacedParts(db);
    RetainedElsewhere(db, org, Chain(db.scopes, op.scope).value, op.scope, o);
    var retained := db.(policies := ScopeOps.Retained(db.policies, org, Chain(db.scopes, op.scope).value, op.scope));
    ReparentedElsewhere(retained, op.scope, op.parent, org, o);
    Through(db, retained, ScopeOps.Moved(db, a, op).value, o);
  }

  lemma DeletedElsewhere(cfg: Config, db: Database, a: Id, op: ScopeOps.ScopeOp, o: Id)
    requires Placed(db) && a in db.principals && op.DeleteScope? && ScopeOps.Deleted(cfg, db, a, op).Ok? && o != db.principals[a].org
    ensures SameTenant(db, ScopeOps.Deleted(cfg, db, a, op).value, o)
  {
    hide RequireRole, Permitted, ScopeOps.HasChild, ScopeOps.HasData, ScopeOps.Purged, ScopeOps.Dropped, Meter.Recounted, SameTenant, Placed;
    var org := db.principals[a].org;
    PlacedParts(db);
    if op.contents {
      var purged := ScopeOps.Purged(db, org, op.scope);
      var counted := Meter.Recounted(cfg, purged, org);
      PurgedElsewhere(db, org, op.scope, o);
      RecountedElsewhere(cfg, purged, org, o);
      Through(db, purged, counted, o);
      assert HasAccessPlaced(counted) && Lives(counted.scopes, op.scope, org) by { PurgedTables(db, org, op.scope); }
      DroppedElsewhere(counted, op.scope, org, o);
      Through(db, counted, ScopeOps.Dropped(counted, op.scope), o);
    } else {
      DroppedElsewhere(db, op.scope, org, o);
    }
  }

  lemma PurgedTables(db: Database, org: Id, sid: Id)
    ensures var d := ScopeOps.Purged(db, org, sid);
      d == db.(records := d.records, versions := d.versions, proposals := d.proposals, messages := d.messages, jobs := d.jobs)
  {
  }

  lemma ScopeOpElsewhere(cfg: Config, db: Database, a: Id, op: ScopeOps.ScopeOp, o: Id)
    requires Placed(db) && ParentsHome(db.scopes)
    requires a in db.principals && ScopeOps.Performed(cfg, db, a, op).Ok? && o != db.principals[a].org
    ensures SameTenant(db, ScopeOps.Performed(cfg, db, a, op).value, o)
  {
    hide ScopeOps.Created, ScopeOps.Moved, ScopeOps.Deleted, ScopeOps.Merged, ScopeOps.PersonalEnsured, SameTenant, Placed;
    PlacedParts(db);
    match op
    case CreateScope(_, _, _, _) => CreatedElsewhere(db, a, op, o);
    case SetPolicy(s, p, e, d) => PolicyWritten(db, s, p, Policy(db.principals[a].org, e, d), o);
    case SetOwner(s, p) => OwnerWritten(db, s, Owner(db.principals[a].org, p), o);
    case Move(_, _) => MovedElsewhere(db, a, op, o);
    case DeleteScope(_, _) => DeletedElsewhere(cfg, db, a, op, o);
    case Merge(_, _) => MergedElsewhere(db, a, op, o);
    case OpenPersonal(id) => PersonalElsewhere(db, a, id, o);
  }

  // ---------------------------------------------------------------- people

  lemma PrincipalCreatedElsewhere(cfg: Config, db: Database, a: Id, op: PeopleOps.PeopleOp, o: Id)
    requires Placed(db) && a in db.principals && op.CreatePrincipal? && PeopleOps.PrincipalCreated(cfg, db, a, op).Ok?
    requires o != db.principals[a].org
    ensures SameTenant(db, PeopleOps.PrincipalCreated(cfg, db, a, op).value, o)
  {
    hide ScopeOps.PersonalEnsured, PeopleOps.NameOrTokenTaken, Placed, SameTenant, Meter.Admitted, Meter.LimitsFor, Meter.ActiveUsers;
    var org := db.principals[a].org;
    var admitted := Meter.Admitted(cfg, db, org, |Meter.ActiveUsers(db, org)|, Meter.LimitsFor(cfg, db.accounts, org).maxUsers).value;
    var row := Principal(org, op.name, op.digest, false, true, op.now);
    var middle := admitted.(used := db.used + {op.id}, principals := db.principals[op.id := row]);
    PlacedParts(db);
    AdmittedElsewhere(cfg, db, org, |Meter.ActiveUsers(db, org)|, Meter.LimitsFor(cfg, db.accounts, org).maxUsers, o);
    PrincipalWritten(admitted, db.used + {op.id}, op.id, row, o);
    Through(db, admitted, middle, o);
    PersonalElsewhere(middle, op.id, op.personal, o);
    Through(db, middle, PeopleOps.PrincipalCreated(cfg, db, a, op).value, o);
  }

  lemma PeopleOpElsewhere(cfg: Config, db: Database, a: Id, op: PeopleOps.PeopleOp, o: Id)
    requires Placed(db) && a in db.principals && PeopleOps.Performed(cfg, db, a, op).Ok? && o != db.principals[a].org
    ensures SameTenant(db, PeopleOps.Performed(cfg, db, a, op).value, o)
  {
    hide RequireRole, PeopleOps.ActiveAdmins, PeopleOps.PrincipalCreated, Placed, SameTenant;
    PlacedParts(db);
    var org := db.principals[a].org;
    match op
    case CreatePrincipal(_, _, _, _, _) => PrincipalCreatedElsewhere(cfg, db, a, op, o);
    case RevokePrincipal(p) => PrincipalWritten(db, db.used, p, db.principals[p].(active := false), o);
    case GrantRole(p, s, role) =>
      assert (p, s) in db.grants ==> Lives(db.scopes, s, db.grants[(p, s)].org);
      GrantWritten(db, p, s, Grant(org, role), o);
    case RevokeGrant(p, s) => GrantWritten(db, p, s, Grant(org, Reader), o);
  }

  // ---------------------------------------------------------------- memory

  lemma ProposedElsewhere(cfg: Config, db: Database, a: Id, op: MemoryOps.MemoryOp, o: Id)
    requires Known(db) && a in db.principals && op.Propose? && MemoryOps.Proposed(cfg, db, a, op).Ok? && o != db.principals[a].org
    ensures SameTenant(db, MemoryOps.Proposed(cfg, db, a, op).value, o)
  {
    hide RequireRole, MemoryOps.MemoryFindings, Meter.Charged, ProposalBytes, SameTenant;
    var org := db.principals[a].org;
    var findings := MemoryOps.MemoryFindings(cfg, op.key, op.content, op.source);
    var row := Proposal(org, op.scope, op.key, op.content, op.expected, op.epistemic, op.source, a, Pending,
                        findings, findings != {}, None);
    var charged := Meter.Charged(cfg, db, org, ProposalBytes(row)).value;
    ChargedElsewhere(cfg, db, org, ProposalBytes(row), o);
    ProposalWritten(charged, db.used + {op.id}, op.id, row, o);
    Through(db, charged, MemoryOps.Proposed(cfg, db, a, op).value, o);
  }

  /** The next version of a key is written next to rows of the same organisation. */
  lemma PromotedElsewhere(db: Database, pid: Id, o: Id)
    requires RecordsPlaced(db.scopes, db.records) && VersionsPlaced(db.scopes, db.versions)
    requires pid in db.proposals && db.proposals[pid].org != o && Lives(db.scopes, db.proposals[pid].scope, db.proposals[pid].org)
    ensures SameTenant(db, MemoryOps.Promoted(db, pid), o)
  {
    hide SameTenant;
    var p := db.proposals[pid];
    var k := (p.scope, p.key);
    var next := MemoryOps.CurrentVersion(db, p.scope, p.key) + 1;
    var d := MemoryOps.Promoted(db, pid);
    assert k in db.records ==> Lives(db.scopes, p.scope, db.records[k].org);
    assert (p.scope, p.key, next) in db.versions ==> Lives(db.scopes, p.scope, db.versions[(p.scope, p.key, next)].org);
    assert RecordsKept(db.records, d.records, o);
    assert VersionsKept(db.versions, d.versions, o);
    Kept(db, d, o);
  }

  lemma SettledElsewhere(db: Database, pid: Id, status: ProposalStatus, reviewer: Id, o: Id)
    requires pid in db.proposals && db.proposals[pid].org != o
    ensures SameTenant(db, MemoryOps.Settled(db, pid, status, reviewer), o)
  {
    hide SameTenant;
    ProposalWritten(db, db.used, pid, db.proposals[pid].(status := status, reviewer := Some(reviewer)), o);
  }

  lemma AcceptedElsewhere(cfg: Config, db: Database, a: Id, pid: Id, o: Id)
    requires RecordsPlaced(db.scopes, db.records) && VersionsPlaced(db.scopes, db.versions)
    requires pid in db.proposals && db.proposals[pid].org != o && Lives(db.scopes, db.proposals[pid].scope, db.proposals[pid].org)
    requires MemoryOps.AcceptedInto(cfg, db, a, pid).Ok?
    ensures SameTenant(db, MemoryOps.AcceptedInto(cfg, db, a, pid).value, o)
  {
    hide SameTenant, Meter.Charged, MemoryOps.Promoted, RecordsPlaced, VersionsPlaced;
    var p := db.proposals[pid];
    var n := Bytes(p.content) + Bytes(p.source);
    var charged := Meter.Charged(cfg, db, p.org, n).value;
    var settled := MemoryOps.Settled(charged, pid, Accepted, a);
    ChargedElsewhere(cfg, db, p.org, n, o);
    SettledElsewhere(charged, pid, Accepted, a, o);
    Through(db, charged, settled, o);
    PromotedElsewhere(settled, pid, o);
    Through(db, settled, MemoryOps.Promoted(settled, pid), o);
  }

  lemma ReviewedElsewhere(cfg: Config, db: Database, a: Id, op: MemoryOps.MemoryOp, o: Id)
    requires PayloadPlaced(db, db.scopes) && a in db.principals && op.Review? && MemoryOps.Reviewed(cfg, db, a, op).Ok?
    requires o != db.principals[a].org
    ensures SameTenant(db, MemoryOps.Reviewed(cfg, db, a, op).value, o)
  {
    hide RequireRole, MemoryOps.AcceptedInto, MemoryOps.Settled, SameTenant, MemoryOps.CurrentVersion, RecordsPlaced, VersionsPlaced,
         LocksPlaced, MessagesPlaced, JobsPlaced;
    var pid := op.proposal;
    var p := db.proposals[pid];
    var held := db.(locks := db.locks + {(p.scope, p.key)});
    var d := MemoryOps.Reviewed(cfg, db, a, op).value;
    if !op.accept { SettledElsewhere(db, pid, Rejected, a, o); }
    else {
      assert Lives(db.scopes, p.scope, p.org);
      LockTaken(db, p.scope, p.key, p.org, o);
      if p.expected != MemoryOps.CurrentVersion(db, p.scope, p.key) { SettledElsewhere(held, pid, Conflicted, a, o); }
      else { AcceptedElsewhere(cfg, held, a, pid, o); }
      Through(db, held, d, o);
    }
  }

  lemma KeyDeletedElsewhere(cfg: Config, db: Database, a: Id, op: MemoryOps.MemoryOp, o: Id)
    requires a in db.principals && op.DeleteKey? && MemoryOps.KeyDeleted(cfg, db, a, op).Ok? && o != db.principals[a].org
    ensures SameTenant(db, MemoryOps.KeyDeleted(cfg, db, a, op).value, o)
  {
    hide RequireRole, Permitted, MemoryOps.KeyExists, MemoryOps.KeyPurged, Meter.Recounted, SameTenant;
    var org := db.principals[a].org;
    var purged := MemoryOps.KeyPurged(db, org, op.scope, op.key);
    KeyPurgedElsewhere(db, org, op.scope, op.key, o);
    RecountedElsewhere(cfg, purged, org, o);
    Through(db, purged, Meter.Recounted(cfg, purged, org), o);
  }

  lemma SentElsewhere(cfg: Config, db: Database, a: Id, op: MemoryOps.MemoryOp, o: Id)
    requires Known(db) && a in db.principals && op.Send? && MemoryOps.Sent(cfg, db, a, op).Ok? && o != db.principals[a].org
    ensures SameTenant(db, MemoryOps.Sent(cfg, db, a, op).value, o)
  {
    hide RequireRole, RoleFor, Meter.Charged, MessageBytes, SameTenant;
    var org := db.principals[a].org;
    var findings := cfg.scan(op.body);
    var row := Message(org, op.scope, a, op.recipient, op.body, findings, findings != {});
    var charged := Meter.Charged(cfg, db, org, MessageBytes(row)).value;
    ChargedElsewhere(cfg, db, org, MessageBytes(row), o);
    MessageWritten(charged, db.used + {op.id}, op.id, row, o);
    Through(db, charged, MemoryOps.Sent(cfg, db, a, op).value, o);
  }

  lemma MemoryOpElsewhere(cfg: Config, db: Database, a: Id, op: MemoryOps.MemoryOp, o: Id)
    requires Placed(db) && a in db.principals && MemoryOps.Performed(cfg, db, a, op).Ok? && o != db.principals[a].org
    ensures SameTenant(db, MemoryOps.Performed(cfg, db, a, op).value, o)
  {
    hide SameTenant, MemoryOps.Proposed, MemoryOps.Reviewed, MemoryOps.KeyDeleted, MemoryOps.Sent, HasAccessPlaced, PayloadPlaced, Known;
    match op
    case Propose(_, _, _, _, _, _, _) => ProposedElsewhere(cfg, db, a, op, o);
    case Review(_, _) => ReviewedElsewhere(cfg, db, a, op, o);
    case DeleteKey(_, _) => KeyDeletedElsewhere(cfg, db, a, op, o);
    case Send(_, _, _, _) => SentElsewhere(cfg, db, a, op, o);
  }

  // ---------------------------------------------------------------- jobs and slots

  lemma JobCreatedElsewhere(cfg: Config, db: Database, a: Id, op: JobOps.JobOp, o: Id)
    requires Known(db) && a in db.principals && op.CreateJob? && JobOps.JobCreated(cfg, db, a, op).Ok? && o != db.principals[a].org
    ensures SameTenant(db, JobOps.JobCreated(cfg, db, a, op).value, o)
  {
    hide RequireRole, RoleFor, JobOps.JobFindings, Meter.Charged, JobBytes, SameTenant, JobOps.Replayed, JobOps.SamePayload;
    var org := db.principals[a].org;
    if JobOps.Replayed(db, a, op) { Kept(db, db, o); }
    else {
      var row := JobOps.QueuedRow(cfg, org, a, op);
      var charged := Meter.Charged(cfg, db, org, JobBytes(row)).value;
      ChargedElsewhere(cfg, db, org, JobBytes(row), o);
      JobWritten(charged, db.used + {op.id}, op.id, row, o);
      Through(db, charged, JobOps.JobCreated(cfg, db, a, op).value, o);
    }
  }

  ghost function SubmissionCharge(cfg: Config, job: Job, result: PayloadScan.Value): nat
    requires cfg.dumps(result).Some?
  {
    Bytes(cfg.dumps(result).value)
      + JobOps.Max(0, FindingsBytes(PayloadScan.Findings(cfg.scan, result)) - FindingsBytes(job.findings))
  }

  /** A submission is a charge, and then one written row. */
  lemma SubmittedParts(cfg: Config, db: Database, a: Id, op: JobOps.JobOp)
    requires a in db.principals && op.Submit? && JobOps.JobSubmitted(cfg, db, a, op).Ok?
    ensures op.job in db.jobs && db.jobs[op.job].org == db.principals[a].org && cfg.dumps(op.result).Some?
    ensures var job := db.jobs[op.job];
      var charged := Meter.Charged(cfg, db, job.org, SubmissionCharge(cfg, job, op.result));
      && charged.Ok?
      && JobOps.JobSubmitted(cfg, db, a, op).value == charged.value.(jobs := db.jobs[op.job :=
           JobOps.SubmittedRow(job, cfg.dumps(op.result).value, PayloadScan.Findings(cfg.scan, op.result))])
  {
    hide JobOps.Fenced, Meter.Charged, FindingsBytes, Bytes, PayloadScan.Findings, JobOps.SubmittedRow;
    FencedJob(db, a, op.job, op.token, op.now);
  }

  lemma JobSubmittedElsewhere(cfg: Config, db: Database, a: Id, op: JobOps.JobOp, o: Id)
    requires a in db.principals && op.Submit? && JobOps.JobSubmitted(cfg, db, a, op).Ok? && o != db.principals[a].org
    ensures SameTenant(db, JobOps.JobSubmitted(cfg, db, a, op).value, o)
  {
    hide JobOps.JobSubmitted, SubmissionCharge, PayloadScan.Findings, Meter.Charged, SameTenant, JobOps.SubmittedRow;
    SubmittedParts(cfg, db, a, op);
    var job := db.jobs[op.job];
    var row := JobOps.SubmittedRow(job, cfg.dumps(op.result).value, PayloadScan.Findings(cfg.scan, op.result));
    var n := SubmissionCharge(cfg, job, op.result);
    var charged := Meter.Charged(cfg, db, job.org, n).value;
    SubmittedOrg(job, cfg.dumps(op.result).value, PayloadScan.Findings(cfg.scan, op.result));
    ChargedElsewhere(cfg, db, job.org, n, o);
    JobWritten(charged, charged.used, op.job, row, o);
    Through(db, charged, charged.(jobs := charged.jobs[op.job := row]), o);
  }

  lemma SubmittedOrg(job: Job, json: string, findings: Findings)
    ensures JobOps.SubmittedRow(job, json, findings).org == job.org
  {
  }

  lemma JobOpElsewhere(cfg: Config, db: Database, a: Id, op: JobOps.JobOp, o: Id)
    requires Known(db) && a in db.principals && JobOps.Performed(cfg, db, a, op).Ok? && o != db.principals[a].org
    ensures SameTenant(db, JobOps.Performed(cfg, db, a, op).value, o)
  {
    hide JobOps.JobCreated, JobOps.JobSubmitted, RequireRole, RoleFor, JobOps.Expired, AtLeast, SameTenant;
    match op
    case CreateJob(_, _, _, _, _) => JobCreatedElsewhere(cfg, db, a, op, o);
    case Submit(_, _, _, _) => JobSubmittedElsewhere(cfg, db, a, op, o);
    case Claim(j, seconds, token, now) => JobWritten(db, db.used, j, JobOps.ClaimedRow(db.jobs[j], token, now, seconds), o);
    case Renew(j, seconds, _, now) => JobWritten(db, db.used, j, JobOps.RenewedRow(db.jobs[j], now + seconds * JobOps.SECOND), o);
    case ReviewJob(j, accept) => JobWritten(db, db.used, j, JobOps.EndedRow(db.jobs[j], if accept then Completed else Failed), o);
    case Cancel(j) => JobWritten(db, db.used, j, JobOps.EndedRow(db.jobs[j], Cancelled), o);
  }

  /** Instances and connections carry generated identifiers too. */
  ghost predicate SlotsKnown(db: Database) {
    db.instances.Keys <= db.used && db.connections.Keys <= db.used
  }

  lemma SlotOpElsewhere(cfg: Config, db: Database, a: Id, op: SlotOps.SlotOp, o: Id)
    requires SlotsKnown(db) && a in db.principals && SlotOps.Performed(cfg, db, a, op).Ok? && o != db.principals[a].org
    ensures SameTenant(db, SlotOps.Performed(cfg, db, a, op).value, o)
  {
    hide Meter.Admitted, Meter.ActiveInstances, Meter.ActiveConnections, Meter.LimitsFor, SameTenant;
    var org := db.principals[a].org;
    var d := SlotOps.Performed(cfg, db, a, op).value;
    match op
    case CreateInstance(name, id, now) =>
      var n, ceiling := |Meter.ActiveInstances(db, org)|, Meter.LimitsFor(cfg, db.accounts, org).maxInstances;
      AdmittedElsewhere(cfg, db, org, n, ceiling, o);
      InstanceWritten(Meter.Admitted(cfg, db, org, n, ceiling).value, db.used + {id}, id, Instance(org, name, true, now), o);
      Through(db, Meter.Admitted(cfg, db, org, n, ceiling).value, d, o);
    case Issue(instance, owner, digest, id, now) =>
      var n, ceiling := |Meter.ActiveConnections(db, org)|, Meter.LimitsFor(cfg, db.accounts, org).maxConnections;
      AdmittedElsewhere(cfg, db, org, n, ceiling, o);
      ConnectionWritten(Meter.Admitted(cfg, db, org, n, ceiling).value, db.used + {id}, id,
                        Connection(org, owner, instance, digest, true, now), o);
      Through(db, Meter.Admitted(cfg, db, org, n, ceiling).value, d, o);
    case Revoke(c) => ConnectionWritten(db, db.used, c, db.connections[c].(active := false), o);
  }

  // ---------------------------------------------------------------- every dispatch

  /** Whatever a principal does, no row of another organisation changes. */
  lemma DispatchElsewhere(cfg: Config, db: Database, who: Identity, op: Op, o: Id)
    requires Placed(db) && Forest(db.scopes) && SlotsKnown(db) && Dispatched(cfg, db, who, op).Ok? && o != who.org
    ensures SameTenant(db, Dispatched(cfg, db, who, op).value, o)
  {
    hide SameTenant, HasAccessPlaced, PayloadPlaced, ScopeOps.Performed, PeopleOps.Performed, MemoryOps.Performed,
         JobOps.Performed, SlotOps.Performed, Rooted;
    match op
    case OnScopes(x) => ScopeOpElsewhere(cfg, db, who.id, x, o);
    case OnPeople(x) => PeopleOpElsewhere(cfg, db, who.id, x, o);
    case OnMemory(x) => MemoryOpElsewhere(cfg, db, who.id, x, o);
    case OnJobs(x) => JobOpElsewhere(cfg, db, who.id, x, o);
    case OnSlots(x) => SlotOpElsewhere(cfg, db, who.id, x, o);
  }

  lemma StepSlotsKnown(cfg: Config, db: Database, call: Call)
    requires SlotsKnown(db)
    ensures SlotsKnown(Step(cfg, db, call))
  {
    hide PeopleOps.OrganisationCreated, Dispatched;
    match call
    case Dispatch(who, op) => if Dispatched(cfg, db, who, op).Ok? { DispatchSlotsKnown(cfg, db, who, op); }
    case NewOrganisation(t) => if PeopleOps.OrganisationCreated(db, t).Ok? { TenantFrame(db, t); }
    case Recalculate(_) =>
    case BillingAuthority(_) =>
  }

  lemma DispatchSlotsKnown(cfg: Config, db: Database, who: Identity, op: Op)
    requires SlotsKnown(db) && Dispatched(cfg, db, who, op).Ok?
    ensures SlotsKnown(Dispatched(cfg, db, who, op).value)
  {
    hide ScopeOps.Performed, PeopleOps.Performed, MemoryOps.Performed, JobOps.Performed, SlotOps.Performed;
    match op
    case OnScopes(x) => ScopeFrame(cfg, db, who.id, x);
    case OnPeople(x) => PeopleFrame(cfg, db, who.id, x);
    case OnMemory(x) => MemoryFrame(cfg, db, who.id, x);
    case OnJobs(x) => JobFrame(cfg, db, who.id, x);
    case OnSlots(x) => SlotOpKnown(cfg, db, who.id, x);
  }

  lemma SlotOpKnown(cfg: Config, db: Database, a: Id, op: SlotOps.SlotOp)
    requires SlotsKnown(db) && a in db.principals && SlotOps.Performed(cfg, db, a, op).Ok?
    ensures SlotsKnown(SlotOps.Performed(cfg, db, a, op).value)
  {
    hide Meter.Admitted, Meter.ActiveInstances, Meter.ActiveConnections, Meter.LimitsFor;
  }

  /** An identity that does not match an active database row commits nothing, whatever it asks for. */
  lemma ForgedIdentity(cfg: Config, db: Database, who: Identity, op: Op)
    requires who.id in db.principals && db.principals[who.id].active ==>
               db.principals[who.id].org != who.org || db.principals[who.id].name != who.name
    ensures Dispatched(cfg, db, who, op) == Err(Denied) && Step(cfg, db, Dispatch(who, op)) == db
  {
    hide Performed;
  }
}
