/** What stays gone over every run, and what an insertion may not exceed: revoked principals and connections,
    deleted scopes, and the ceilings of a plan. */
module DepartureProofs {
  import opened Base
  import opened Tables
  import opened ScopeTree
  import opened Meter
  import opened PlacementProofs
  import opened DenialProofs
  import opened Slots
  import opened IsolationProofs
  import opened RunProofs
  import CustodyProofs
  import ScopeOps
  import PeopleOps
  import MemoryOps
  import JobOps
  import SlotOps
  import opened Workspace

  // ---------------------------------------------------------------- principals

  /** Principals are only added or retired: none comes back, changes its organisation or becomes an administrator. */
  ghost predicate OnlyRetired(before: map<Id, Principal>, after: map<Id, Principal>) {
    forall p :: p in before ==> p in after && (after[p] == before[p] || after[p] == before[p].(active := false))
  }

  lemma PeopleRetire(cfg: Config, db: Database, a: Id, op: PeopleOps.PeopleOp)
    requires Known(db) && a in db.principals && PeopleOps.Performed(cfg, db, a, op).Ok?
    ensures OnlyRetired(db.principals, PeopleOps.Performed(cfg, db, a, op).value.principals)
  {
    hide RequireRole, Admitted, PeopleOps.ActiveAdmins, PeopleOps.NameOrTokenTaken, ScopeOps.HasPersonal, ActiveUsers;
  }

  lemma TenantRetires(db: Database, t: PeopleOps.Tenant)
    requires Known(db) && PeopleOps.OrganisationCreated(db, t).Ok?
    ensures OnlyRetired(db.principals, PeopleOps.OrganisationCreated(db, t).value.principals)
  {
    hide PeopleOps.NameOrTokenTaken, ScopeOps.HasPersonal;
  }

  lemma DispatchRetires(cfg: Config, db: Database, who: Identity, op: Op)
    requires Known(db) && Dispatched(cfg, db, who, op).Ok?
    ensures OnlyRetired(db.principals, Dispatched(cfg, db, who, op).value.principals)
  {
    hide PeopleOps.Performed, ScopeOps.Performed, MemoryOps.Performed, JobOps.Performed, SlotOps.Performed;
    match op
    case OnScopes(o) => ScopeFrame(cfg, db, who.id, o);
    case OnPeople(o) => PeopleRetire(cfg, db, who.id, o);
    case OnMemory(o) => MemoryFrame(cfg, db, who.id, o);
    case OnJobs(o) => JobFrame(cfg, db, who.id, o);
    case OnSlots(o) => SlotFrame(cfg, db, who.id, o);
  }

  /** No step brings a revoked principal back. */
  lemma StepRetires(cfg: Config, db: Database, call: Call)
    requires Known(db)
    ensures OnlyRetired(db.principals, Step(cfg, db, call).principals)
  {
    hide Dispatched, PeopleOps.OrganisationCreated;
    match call
    case Dispatch(who, op) => if Dispatched(cfg, db, who, op).Ok? { DispatchRetires(cfg, db, who, op); }
    case NewOrganisation(t) => if PeopleOps.OrganisationCreated(db, t).Ok? { TenantRetires(db, t); }
    case Recalculate(_) =>
    case BillingAuthority(_) =>
  }

  lemma {:induction false} RunRetired(cfg: Config, db: Database, calls: seq<Call>, p: Id)
    requires Sound(cfg, db) && p in db.principals && !db.principals[p].active
    ensures var d := Run(cfg, db, calls); p in d.principals && !d.principals[p].active
    decreases |calls|
  {
    hide Sound, Step;
    if calls != [] {
      SoundKnown(cfg, db);
      StepSound(cfg, db, calls[0]);
      StepRetires(cfg, db, calls[0]);
      RunRetired(cfg, Step(cfg, db, calls[0]), calls[1..], p);
    }
  }

  lemma SoundKnown(cfg: Config, db: Database)
    requires Sound(cfg, db)
    ensures Forest(db.scopes) && Placed(db) && SlotsKnown(db)
  {
  }

  lemma RevokedRow(cfg: Config, db: Database, a: Id, p: Id)
    requires a in db.principals && PeopleOps.PrincipalRevoked(db, a, PeopleOps.RevokePrincipal(p)).Ok?
    requires db.principals[a].active
    ensures var d := PeopleOps.PrincipalRevoked(db, a, PeopleOps.RevokePrincipal(p)).value;
      && p in d.principals && !d.principals[p].active
      && exists q :: q in PeopleOps.ActiveAdmins(d, db.principals[a].org)
  {
    var org := db.principals[a].org;
    var admins := PeopleOps.ActiveAdmins(db, org);
    var d := PeopleOps.PrincipalRevoked(db, a, PeopleOps.RevokePrincipal(p)).value;
    if a != p {
      assert a in PeopleOps.ActiveAdmins(d, org);
    } else {
      assert a in admins && |admins - {a}| == |admins| - 1;
      var q :| q in admins - {a};
      assert q in PeopleOps.ActiveAdmins(d, org);
    }
  }

  /** A revocation leaves an active administrator in the organisation. In no later state can the revoked
      principal do anything, under whatever identity, and none of its connections authenticates. */
  lemma RevokedForEver(cfg: Config, db: Database, who: Identity, p: Id, calls: seq<Call>)
    requires Reachable(cfg, db) && Dispatched(cfg, db, who, OnPeople(PeopleOps.RevokePrincipal(p))).Ok?
    ensures var d := Dispatched(cfg, db, who, OnPeople(PeopleOps.RevokePrincipal(p))).value; var later := Run(cfg, d, calls);
      && (exists q :: q in PeopleOps.ActiveAdmins(d, who.org))
      && (forall me: Identity, op | me.id == p :: Dispatched(cfg, later, me, op) == Err(Denied))
      && (forall c | c in later.connections && later.connections[c].owner == p :: !Authenticates(cfg, later, c))
  {
    hide Reachable, Sound, Run, PeopleOps.PrincipalRevoked, PeopleOps.ActiveAdmins, Eligible, LimitsFor;
    ReachableSound(cfg, db);
    var call := Call.Dispatch(who, OnPeople(PeopleOps.RevokePrincipal(p)));
    StepSound(cfg, db, call);
    RevokedRow(cfg, db, who.id, p);
    RunRetired(cfg, Step(cfg, db, call), calls, p);
  }

  // ---------------------------------------------------------------- connections

  /** Connections are only added or retired. */
  ghost predicate OnlyCut(before: map<Id, Connection>, after: map<Id, Connection>) {
    forall c :: c in before ==> c in after && (after[c] == before[c] || after[c] == before[c].(active := false))
  }

  lemma DispatchCuts(cfg: Config, db: Database, who: Identity, op: Op)
    requires SlotsKnown(db) && Dispatched(cfg, db, who, op).Ok?
    ensures OnlyCut(db.connections, Dispatched(cfg, db, who, op).value.connections)
  {
    hide PeopleOps.Performed, ScopeOps.Performed, MemoryOps.Performed, JobOps.Performed, SlotOps.Performed;
    match op
    case OnScopes(o) => ScopeFrame(cfg, db, who.id, o);
    case OnPeople(o) => PeopleFrame(cfg, db, who.id, o);
    case OnMemory(o) => MemoryFrame(cfg, db, who.id, o);
    case OnJobs(o) => JobFrame(cfg, db, who.id, o);
    case OnSlots(o) => SlotsCut(cfg, db, who.id, o);
  }

  /** No step brings a revoked connection back. */
  lemma StepCuts(cfg: Config, db: Database, call: Call)
    requires SlotsKnown(db)
    ensures OnlyCut(db.connections, Step(cfg, db, call).connections)
  {
    hide Dispatched, PeopleOps.OrganisationCreated;
    match call
    case Dispatch(who, op) => if Dispatched(cfg, db, who, op).Ok? { DispatchCuts(cfg, db, who, op); }
    case NewOrganisation(t) => if PeopleOps.OrganisationCreated(db, t).Ok? { TenantFrame(db, t); }
    case Recalculate(_) =>
    case BillingAuthority(_) =>
  }

  lemma SlotsCut(cfg: Config, db: Database, a: Id, op: SlotOps.SlotOp)
    requires SlotsKnown(db) && a in db.principals && SlotOps.Performed(cfg, db, a, op).Ok?
    ensures OnlyCut(db.connections, SlotOps.Performed(cfg, db, a, op).value.connections)
  {
    hide Admitted, ActiveInstances, ActiveConnections, LimitsFor, PeopleOps.Member;
  }

  lemma {:induction false} RunCut(cfg: Config, db: Database, calls: seq<Call>, c: Id)
    requires Sound(cfg, db) && c in db.connections && !db.connections[c].active
    ensures var d := Run(cfg, db, calls); c in d.connections && !d.connections[c].active
    decreases |calls|
  {
    hide Sound, Step;
    if calls != [] {
      SoundKnown(cfg, db);
      StepSound(cfg, db, calls[0]);
      StepCuts(cfg, db, calls[0]);
      RunCut(cfg, Step(cfg, db, calls[0]), calls[1..], c);
    }
  }

  /** Only its owner or an administrator revokes a connection, and it never authenticates again. */
  lemma CutForEver(cfg: Config, db: Database, who: Identity, c: Id, calls: seq<Call>)
    requires Reachable(cfg, db) && Dispatched(cfg, db, who, OnSlots(SlotOps.Revoke(c))).Ok?
    ensures c in db.connections && who.id in db.principals
    ensures db.connections[c].owner == who.id || db.principals[who.id].admin
    ensures !Authenticates(cfg, Run(cfg, Dispatched(cfg, db, who, OnSlots(SlotOps.Revoke(c))).value, calls), c)
  {
    hide Reachable, Sound, Run, Eligible, LimitsFor;
    ReachableSound(cfg, db);
    var call := Call.Dispatch(who, OnSlots(SlotOps.Revoke(c)));
    StepSound(cfg, db, call);
    RunCut(cfg, Step(cfg, db, call), calls, c);
  }

  /** A new connection authenticates at once, exactly if its instance and its owner are within the plan. */
  lemma IssuedAuthenticates(cfg: Config, db: Database, a: Id, op: SlotOps.SlotOp)
    requires SlotsKnown(db) && a in db.principals && op.Issue? && SlotOps.Issued(cfg, db, a, op).Ok?
    ensures var limits := LimitsFor(cfg, db.accounts, db.principals[a].org);
      Authenticates(cfg, SlotOps.Issued(cfg, db, a, op).value, op.id) <==>
        (cfg.metered ==>
          && Eligible(InstanceAges(db, db.principals[a].org), limits.maxInstances, op.instance)
          && Eligible(PrincipalAges(db, db.principals[a].org), limits.maxUsers, op.owner))
  {
    hide Eligible, LimitsFor, ConnectionAges, InstanceAges, PrincipalAges, UsageLocked, ActiveConnections;
    var d := SlotOps.Issued(cfg, db, a, op).value;
    var org := db.principals[a].org;
    var row := Connection(org, op.owner, op.instance, op.digest, true, op.now);
    IssuedAges(db, d, op.id, row, org);
    SameAges(db, d, org);
    AgesOfActive(db, org);
    var ages, ceiling := ConnectionAges(db, org), LimitsFor(cfg, db.accounts, org).maxConnections;
    NewIsNoRow(db, org, op.id);
    if cfg.metered { NewestEligible(ages, ceiling, op.id, op.now); }
    WithoutCeiling(db, org, op.instance, op.owner);
  }

  lemma NewestEligible(ages: Ages, ceiling: Option<nat>, id: Id, age: int)
    requires id !in ages && Below(|ages.Keys|, ceiling)
    ensures Eligible(ages[id := age], ceiling, id)
  {
    var more := ages[id := age];
    EarlierTotal(more, id, id);
    assert more.Keys == ages.Keys + {id};
    Subset(Ahead(more, id), more.Keys - {id});
  }

  lemma WithoutCeiling(db: Database, org: Id, i: Id, p: Id)
    ensures i in db.instances && db.instances[i].org == org && db.instances[i].active ==> Eligible(InstanceAges(db, org), None, i)
    ensures p in db.principals && db.principals[p].org == org && db.principals[p].active ==> Eligible(PrincipalAges(db, org), None, p)
  {
  }

  // ---------------------------------------------------------------- the ceilings of a plan

  /** A count stays, falls, or grows by one to at most the ceiling. */
  ghost predicate CountFits(before: nat, after: nat, ceiling: Option<nat>) {
    after <= before || (after == before + 1 && (ceiling.Some? ==> after <= ceiling.value))
  }

  ghost predicate CountsFit(cfg: Config, before: Database, after: Database, o: Id) {
    var limits := LimitsFor(cfg, before.accounts, o);
    && CountFits(|ActiveUsers(before, o)|, |ActiveUsers(after, o)|, limits.maxUsers)
    && CountFits(|ActiveInstances(before, o)|, |ActiveInstances(after, o)|, limits.maxInstances)
    && CountFits(|ActiveConnections(before, o)|, |ActiveConnections(after, o)|, limits.maxConnections)
  }

  lemma UsersAs(db: Database, d: Database, o: Id)
    requires d.principals == db.principals
    ensures ActiveUsers(d, o) == ActiveUsers(db, o)
  {
  }

  lemma InstancesAs(db: Database, d: Database, o: Id)
    requires d.instances == db.instances
    ensures ActiveInstances(d, o) == ActiveInstances(db, o)
  {
  }

  lemma ConnectionsAs(db: Database, d: Database, o: Id)
    requires d.connections == db.connections
    ensures ActiveConnections(d, o) == ActiveConnections(db, o)
  {
  }

  /** One more at most, and only an admitted one. */
  lemma OneMoreFits(before: set<Id>, after: set<Id>, id: Id, ceiling: Option<nat>)
    requires after <= before + {id} && (after <= before || Below(|before|, ceiling))
    ensures CountFits(|before|, |after|, ceiling)
  {
    if after <= before { Subset(after, before); } else { Subset(after, before + {id}); }
  }

  lemma FewerFits(before: set<Id>, after: set<Id>, ceiling: Option<nat>)
    requires after <= before
    ensures CountFits(|before|, |after|, ceiling)
  {
    Subset(after, before);
  }

  lemma SameSlots(cfg: Config, db: Database, d: Database, o: Id)
    requires d.principals == db.principals && d.instances == db.instances && d.connections == db.connections
    ensures CountsFit(cfg, db, d, o)
  {
    hide ActiveUsers, ActiveInstances, ActiveConnections;
    UsersAs(db, d, o);
    InstancesAs(db, d, o);
    ConnectionsAs(db, d, o);
  }

  lemma PeopleFit(cfg: Config, db: Database, a: Id, op: PeopleOps.PeopleOp, o: Id)
    requires cfg.metered && Known(db) && a in db.principals && PeopleOps.Performed(cfg, db, a, op).Ok?
    ensures CountsFit(cfg, db, PeopleOps.Performed(cfg, db, a, op).value, o)
  {
    hide RequireRole, PeopleOps.Performed, ActiveUsers, ActiveInstances, ActiveConnections, LimitsFor;
    var d := PeopleOps.Performed(cfg, db, a, op).value;
    PeopleFrame(cfg, db, a, op);
    InstancesAs(db, d, o);
    ConnectionsAs(db, d, o);
    var ceiling := LimitsFor(cfg, db.accounts, o).maxUsers;
    match op
    case CreatePrincipal(_, _, id, _, _) =>
      MemberAdmitted(cfg, db, a, op, o);
      OneMoreFits(ActiveUsers(db, o), ActiveUsers(d, o), id, ceiling);
    case RevokePrincipal(_) =>
      FewerUsers(cfg, db, a, op, o);
      FewerFits(ActiveUsers(db, o), ActiveUsers(d, o), ceiling);
    case GrantRole(_, _, _) => FewerUsers(cfg, db, a, op, o);
    case RevokeGrant(_, _) => FewerUsers(cfg, db, a, op, o);
  }

  lemma MemberAdmitted(cfg: Config, db: Database, a: Id, op: PeopleOps.PeopleOp, o: Id)
    requires cfg.metered && Known(db) && a in db.principals && op.CreatePrincipal? && PeopleOps.Performed(cfg, db, a, op).Ok?
    ensures var d := PeopleOps.Performed(cfg, db, a, op).value;
      && ActiveUsers(d, o) <= ActiveUsers(db, o) + {op.id}
      && (ActiveUsers(d, o) <= ActiveUsers(db, o) || Below(|ActiveUsers(db, o)|, LimitsFor(cfg, db.accounts, o).maxUsers))
  {
    hide PeopleOps.NameOrTokenTaken, UsageLocked, LimitsFor, ScopeOps.HasPersonal, Below;
  }

  lemma FewerUsers(cfg: Config, db: Database, a: Id, op: PeopleOps.PeopleOp, o: Id)
    requires a in db.principals && !op.CreatePrincipal? && PeopleOps.Performed(cfg, db, a, op).Ok?
    ensures var d := PeopleOps.Performed(cfg, db, a, op).value;
      ActiveUsers(d, o) <= ActiveUsers(db, o) && (!op.RevokePrincipal? ==> d.principals == db.principals)
      && (!op.RevokePrincipal? ==> ActiveUsers(d, o) == ActiveUsers(db, o))
  {
    hide RequireRole, PeopleOps.ActiveAdmins;
  }

  lemma InstanceFits(cfg: Config, db: Database, a: Id, op: SlotOps.SlotOp, o: Id)
    requires cfg.metered && SlotsKnown(db) && a in db.principals && op.CreateInstance? && SlotOps.InstanceCreated(cfg, db, a, op).Ok?
    ensures var d := SlotOps.InstanceCreated(cfg, db, a, op).value;
      && d.connections == db.connections
      && ActiveInstances(d, o) <= ActiveInstances(db, o) + {op.id}
      && (ActiveInstances(d, o) <= ActiveInstances(db, o)
          || Below(|ActiveInstances(db, o)|, LimitsFor(cfg, db.accounts, o).maxInstances))
  {
    hide UsageLocked, LimitsFor, Below;
  }

  lemma ConnectionFits(cfg: Config, db: Database, a: Id, op: SlotOps.SlotOp, o: Id)
    requires cfg.metered && SlotsKnown(db) && a in db.principals && op.Issue? && SlotOps.Issued(cfg, db, a, op).Ok?
    ensures var d := SlotOps.Issued(cfg, db, a, op).value;
      && d.instances == db.instances
      && ActiveConnections(d, o) <= ActiveConnections(db, o) + {op.id}
      && (ActiveConnections(d, o) <= ActiveConnections(db, o)
          || Below(|ActiveConnections(db, o)|, LimitsFor(cfg, db.accounts, o).maxConnections))
  {
    hide UsageLocked, LimitsFor, Below, PeopleOps.Member;
  }

  lemma RevokedFits(db: Database, a: Id, op: SlotOps.SlotOp, o: Id)
    requires a in db.principals && op.Revoke? && SlotOps.Revoked(db, a, op).Ok?
    ensures var d := SlotOps.Revoked(db, a, op).value;
      d.instances == db.instances && ActiveConnections(d, o) <= ActiveConnections(db, o)
  {
  }

  lemma SlotsFit(cfg: Config, db: Database, a: Id, op: SlotOps.SlotOp, o: Id)
    requires cfg.metered && SlotsKnown(db) && a in db.principals && SlotOps.Performed(cfg, db, a, op).Ok?
    ensures CountsFit(cfg, db, SlotOps.Performed(cfg, db, a, op).value, o)
  {
    hide SlotOps.InstanceCreated, SlotOps.Issued, SlotOps.Revoked, ActiveUsers, ActiveInstances, ActiveConnections, LimitsFor, Below;
    var d := SlotOps.Performed(cfg, db, a, op).value;
    SlotFrame(cfg, db, a, op);
    UsersAs(db, d, o);
    var limits := LimitsFor(cfg, db.accounts, o);
    match op
    case CreateInstance(_, id, _) =>
      InstanceFits(cfg, db, a, op, o);
      ConnectionsAs(db, d, o);
      OneMoreFits(ActiveInstances(db, o), ActiveInstances(d, o), id, limits.maxInstances);
    case Issue(_, _, _, id, _) =>
      ConnectionFits(cfg, db, a, op, o);
      InstancesAs(db, d, o);
      OneMoreFits(ActiveConnections(db, o), ActiveConnections(d, o), id, limits.maxConnections);
    case Revoke(_) =>
      RevokedFits(db, a, op, o);
      InstancesAs(db, d, o);
      FewerFits(ActiveConnections(db, o), ActiveConnections(d, o), limits.maxConnections);
  }

  /** No dispatch takes the active users, instances or connections of an organisation past its plan, and none
      adds more than one. */
  lemma DispatchCountsFit(cfg: Config, db: Database, who: Identity, op: Op, o: Id)
    requires Reachable(cfg, db) && cfg.metered && Dispatched(cfg, db, who, op).Ok?
    ensures CountsFit(cfg, db, Dispatched(cfg, db, who, op).value, o)
  {
    hide Reachable, Sound, CountsFit, ScopeOps.Performed, PeopleOps.Performed, MemoryOps.Performed, JobOps.Performed, SlotOps.Performed;
    ReachableSound(cfg, db);
    SoundKnown(cfg, db);
    var d := Dispatched(cfg, db, who, op).value;
    match op
    case OnScopes(x) => ScopeFrame(cfg, db, who.id, x); SameSlots(cfg, db, d, o);
    case OnMemory(x) => MemoryFrame(cfg, db, who.id, x); SameSlots(cfg, db, d, o);
    case OnJobs(x) => JobFrame(cfg, db, who.id, x); SameSlots(cfg, db, d, o);
    case OnPeople(x) => PeopleFit(cfg, db, who.id, x, o);
    case OnSlots(x) => SlotsFit(cfg, db, who.id, x, o);
  }

  // ---------------------------------------------------------------- deleted scopes

  /** Who can delete a scope, and when: an effective admin to whom no ancestor denies it, on a department or
      project without children, with its contents or when it has none. */
  lemma DeletionExact(cfg: Config, db: Database, a: Id, op: ScopeOps.ScopeOp)
    requires Forest(db.scopes) && Placed(db) && a in db.principals && op.DeleteScope?
    ensures ScopeOps.Deleted(cfg, db, a, op).Ok? <==>
      && op.scope in db.scopes && db.scopes[op.scope].org == db.principals[a].org && ScopeOps.Manageable(db.scopes[op.scope].kind)
      && RoleFor(db, a, op.scope) == Ok(Some(Admin)) && !Denies(db, op.scope, a, Delete)
      && Up(db.scopes, op.scope, MAX_WALK) == None
      && !ScopeOps.HasChild(db.scopes, op.scope) && (op.contents || !ScopeOps.HasData(db, op.scope))
  {
    hide Forest, Placed, Denies, ScopeOps.HasChild, ScopeOps.HasData, ScopeOps.Purged, ScopeOps.Dropped, Recounted, RoleFor, Permitted;
    if op.scope in db.scopes {
      PermittedExactly(db, op.scope, a, Delete);
      OnlyAdminRank(RoleFor(db, a, op.scope));
    }
  }

  lemma OnlyAdminRank(role: Result<Option<Role>>)
    ensures role.Ok? ==> (AtLeast(role.value, Admin) <==> role.value == Some(Admin))
  {
  }

  /** No owner, policy or grant of the scope. */
  ghost predicate NoAccess(db: Database, s: Id) {
    && s !in db.owners
    && (forall k :: k in db.policies ==> k.0 != s)
    && (forall k :: k in db.grants ==> k.1 != s)
  }

  /** No lock and no payload row of the scope. */
  ghost predicate NoPayload(db: Database, s: Id) {
    && (forall l :: l in db.locks ==> l.0 != s)
    && (forall k :: k in db.records ==> k.0 != s)
    && (forall k :: k in db.versions ==> k.0 != s)
    && (forall i :: i in db.proposals ==> db.proposals[i].scope != s)
    && (forall i :: i in db.messages ==> db.messages[i].scope != s)
    && (forall i :: i in db.jobs ==> db.jobs[i].scope != s)
  }

  /** Nothing refers to the scope. */
  ghost predicate Unmentioned(db: Database, s: Id) {
    s !in db.scopes && (forall c :: c in db.scopes ==> db.scopes[c].parent != Some(s)) && NoAccess(db, s) && NoPayload(db, s)
  }

  lemma NothingLeft(db: Database, s: Id)
    requires Forest(db.scopes) && Placed(db) && s !in db.scopes
    ensures Unmentioned(db, s)
  {
    hide Rooted, AccessPlaced, PayloadPlaced, NoAccess, NoPayload;
    NoAccessLeft(db, s);
    NoPayloadLeft(db, s);
    assert forall c :: c in db.scopes ==> WellPlaced(db.scopes, c);
  }

  lemma NoAccessLeft(db: Database, s: Id)
    requires HasAccessPlaced(db) && s !in db.scopes
    ensures NoAccess(db, s)
  {
    assert forall k :: k in db.policies ==> Lives(db.scopes, k.0, db.policies[k].org);
    assert forall k :: k in db.grants ==> Lives(db.scopes, k.1, db.grants[k].org);
  }

  lemma NoPayloadLeft(db: Database, s: Id)
    requires PayloadPlaced(db, db.scopes) && s !in db.scopes
    ensures NoPayload(db, s)
  {
    assert forall k :: k in db.records ==> Lives(db.scopes, k.0, db.records[k].org);
    assert forall k :: k in db.versions ==> Lives(db.scopes, k.0, db.versions[k].org);
    assert forall i :: i in db.proposals ==> Lives(db.scopes, db.proposals[i].scope, db.proposals[i].org);
    assert forall i :: i in db.messages ==> Lives(db.scopes, db.messages[i].scope, db.messages[i].org);
    assert forall i :: i in db.jobs ==> Lives(db.scopes, db.jobs[i].scope, db.jobs[i].org);
  }

  /** After a deletion nothing refers to the scope in any later state, and the memory of every other scope is
      untouched. */
  lemma DeletedForEver(cfg: Config, db: Database, who: Identity, s: Id, contents: bool, calls: seq<Call>, t: Id, key: string)
    requires Reachable(cfg, db) && Dispatched(cfg, db, who, OnScopes(ScopeOps.DeleteScope(s, contents))).Ok?
    ensures var d := Dispatched(cfg, db, who, OnScopes(ScopeOps.DeleteScope(s, contents))).value;
      && Unmentioned(Run(cfg, d, calls), s)
      && (t != s ==> CustodyProofs.KeyFollows(db, d, t, key, t, true))
  {
    hide Reachable, Sound, Run, Unmentioned, ScopeOps.Deleted, CustodyProofs.KeyFollows, Forest, Placed;
    ReachableSound(cfg, db);
    SoundKnown(cfg, db);
    var op := ScopeOps.DeleteScope(s, contents);
    var call := Call.Dispatch(who, OnScopes(op));
    StepSound(cfg, db, call);
    DeletionExact(cfg, db, who.id, op);
    DeletedScopeGone(cfg, db, who.id, op);
    var d := Step(cfg, db, call);
    StepUsed(cfg, db, call);
    ScopeUsed(db, s);
    RunGone(cfg, d, calls, s);
    RunSound(cfg, d, calls);
    SoundKnown(cfg, Run(cfg, d, calls));
    NothingLeft(Run(cfg, d, calls), s);
    if t != s { CustodyProofs.DeletedKey(cfg, db, who.id, op, t, key); }
  }

  lemma ScopeUsed(db: Database, s: Id)
    requires Placed(db)
    ensures s in db.scopes ==> s in db.used
  {
  }
}
