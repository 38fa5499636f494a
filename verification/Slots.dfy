/** Which connections authenticate: active, owned by an active principal, on an active instance, and
    each of the three among the oldest that the plan allows (distributedai/persistence/billing.py). */
module Slots {
  import opened Base
  import opened Tables
  import opened Sessions
  import ScopeTree
  import opened Meter
  import SlotOps
  import PeopleOps
  import ScopeOps
  import MemoryOps
  import JobOps
  import opened Workspace
  import opened IsolationProofs

  /** Creation times of the rows that compete for one ceiling. */
  type Ages = map<Id, int>

  // ---------------------------------------------------------------- age order

  /** Identifiers in dictionary order. */
  predicate Before(a: Id, b: Id) {
    b != "" && (a == "" || a[0] < b[0] || (a[0] == b[0] && Before(a[1..], b[1..])))
  }

  lemma {:induction false} BeforeTotal(a: Id, b: Id)
    ensures a == b || Before(a, b) || Before(b, a)
    ensures !(Before(a, b) && Before(b, a)) && !Before(a, a)
  {
    if a != "" {
      BeforeTotal(a[1..], a[1..]);
      if b != "" {
        BeforeTotal(a[1..], b[1..]);
        if a[0] == b[0] && a[1..] == b[1..] { assert a == [a[0]] + a[1..] == b; }
      }
    }
  }

  lemma {:induction false} BeforeTransitive(a: Id, b: Id, c: Id)
    requires Before(a, b) && Before(b, c)
    ensures Before(a, c)
  {
    if a != "" && a[0] == b[0] && b[0] == c[0] { BeforeTransitive(a[1..], b[1..], c[1..]); }
  }

  /** `ORDER BY created_at, id`. */
  predicate Earlier(ages: Ages, a: Id, b: Id)
    requires a in ages && b in ages
  {
    ages[a] < ages[b] || (ages[a] == ages[b] && Before(a, b))
  }

  lemma EarlierTotal(ages: Ages, a: Id, b: Id)
    requires a in ages && b in ages
    ensures a == b || Earlier(ages, a, b) || Earlier(ages, b, a)
    ensures !(Earlier(ages, a, b) && Earlier(ages, b, a)) && !Earlier(ages, a, a)
  {
    BeforeTotal(a, b);
    BeforeTotal(a, a);
  }

  lemma EarlierTransitive(ages: Ages, a: Id, b: Id, c: Id)
    requires a in ages && b in ages && c in ages && Earlier(ages, a, b) && Earlier(ages, b, c)
    ensures Earlier(ages, a, c)
  {
    if ages[a] == ages[b] == ages[c] { BeforeTransitive(a, b, c); }
  }

  // ---------------------------------------------------------------- the oldest few

  /** The rows older than `id`. */
  function Ahead(ages: Ages, id: Id): set<Id>
    requires id in ages
  {
    set x | x in ages && Earlier(ages, x, id)
  }

  /** `id` is among the first `ceiling` rows of the age order. */
  predicate Eligible(ages: Ages, ceiling: Option<nat>, id: Id) {
    id in ages && (ceiling.None? || |Ahead(ages, id)| < ceiling.value)
  }

  /** A listing of all rows in age order, as the database returns it. */
  ghost predicate Listing(ages: Ages, list: seq<Id>) {
    && (forall x :: x in list <==> x in ages)
    && (forall i, j :: 0 <= i < j < |list| ==> Earlier(ages, list[i], list[j]))
  }

  ghost function Elements(list: seq<Id>): set<Id> { set x | x in list }

  lemma {:induction false} PrefixSize(list: seq<Id>, n: nat)
    requires n <= |list| && forall i, j :: 0 <= i < j < |list| ==> list[i] != list[j]
    ensures |Elements(list[..n])| == n
  {
    if n > 0 {
      PrefixSize(list, n - 1);
      assert list[..n] == list[..n - 1] + [list[n - 1]];
      assert Elements(list[..n]) == Elements(list[..n - 1]) + {list[n - 1]};
    }
  }

  /** Being eligible is being in the first `ceiling` entries of the listing. */
  lemma EligibleIsPrefix(ages: Ages, list: seq<Id>, ceiling: nat, k: nat)
    requires Listing(ages, list) && k < |list|
    ensures Eligible(ages, Some(ceiling), list[k]) <==> k < ceiling
  {
    forall i, j | 0 <= i < j < |list| ensures list[i] != list[j] { EarlierTotal(ages, list[i], list[j]); }
    PrefixSize(list, k);
    var older := Elements(list[..k]);
    forall x ensures x in older <==> x in Ahead(ages, list[k]) {
      if x in older { var i :| 0 <= i < k && list[i] == x; }
      if x in Ahead(ages, list[k]) {
        var i :| 0 <= i < |list| && list[i] == x;
        EarlierTotal(ages, list[i], list[k]);
        assert i < k;
        assert x in list[..k];
      }
    }
    assert older == Ahead(ages, list[k]);
  }

  /** Some row of a nonempty set is younger than all others of it. */
  lemma {:induction false} Youngest(ages: Ages, s: set<Id>) returns (last: Id)
    requires s != {} && s <= ages.Keys
    ensures last in s && forall x :: x in s && x != last ==> Earlier(ages, x, last)
    decreases |s|
  {
    last :| last in s;
    if s != {last} {
      var rest := s - {last};
      var top := Youngest(ages, rest);
      EarlierTotal(ages, last, top);
      if Earlier(ages, last, top) {
        last := top;
      } else {
        forall x | x in s && x != last ensures Earlier(ages, x, last) {
          if x != top { EarlierTransitive(ages, x, top, last); }
        }
      }
    }
  }

  /** No more rows are eligible than the ceiling allows. */
  lemma EligibleFit(ages: Ages, ceiling: nat, s: set<Id>)
    requires forall x :: x in s ==> Eligible(ages, Some(ceiling), x)
    ensures |s| <= ceiling
  {
    if s != {} {
      var last := Youngest(ages, s);
      assert s - {last} <= Ahead(ages, last);
      Subset(s - {last}, Ahead(ages, last));
    }
  }

  lemma {:induction false} Subset(a: set<Id>, b: set<Id>)
    requires a <= b
    ensures |a| <= |b|
    decreases |a|
  {
    if a != {} {
      var x :| x in a;
      Subset(a - {x}, b - {x});
    }
  }

  /** Below the ceiling everything is eligible, so a new row knocks out none, whatever its age. */
  lemma InsertedKeeps(ages: Ages, ceiling: Option<nat>, id: Id, age: int, x: Id)
    requires id !in ages && Below(|ages.Keys|, ceiling) && x in ages
    ensures Eligible(ages[id := age], ceiling, x) && Eligible(ages[id := age], ceiling, id)
  {
    var more := ages[id := age];
    forall y | y in {x, id} ensures Eligible(more, ceiling, y) {
      EarlierTotal(more, y, y);
      assert more.Keys == ages.Keys + {id};
      Subset(Ahead(more, y), more.Keys - {y});
    }
  }

  /** Older rows go first: when a row is eligible, so is every row created before it. */
  lemma OlderGoesFirst(ages: Ages, ceiling: Option<nat>, older: Id, newer: Id)
    requires older in ages && newer in ages && ages[older] < ages[newer] && Eligible(ages, ceiling, newer)
    ensures Eligible(ages, ceiling, older)
  {
    forall x | x in Ahead(ages, older) ensures x in Ahead(ages, newer) {}
    Subset(Ahead(ages, older), Ahead(ages, newer));
  }

  /** A removed row makes room. */
  lemma RemovedKeeps(ages: Ages, ceiling: Option<nat>, id: Id, x: Id)
    requires x != id && Eligible(ages, ceiling, x)
    ensures Eligible(ages - {id}, ceiling, x)
  {
    var fewer := ages - {id};
    assert forall y :: y in Ahead(fewer, x) ==> y in Ahead(ages, x);
    Subset(Ahead(fewer, x), Ahead(ages, x));
  }

  // ---------------------------------------------------------------- authentication

  function ConnectionAges(db: Database, org: Id): Ages {
    map c | c in db.connections && db.connections[c].org == org && db.connections[c].active :: db.connections[c].created
  }

  function InstanceAges(db: Database, org: Id): Ages {
    map i | i in db.instances && db.instances[i].org == org && db.instances[i].active :: db.instances[i].created
  }

  function PrincipalAges(db: Database, org: Id): Ages {
    map p | p in db.principals && db.principals[p].org == org && db.principals[p].active :: db.principals[p].created
  }

  /** The connection, its owner and its instance are usable, whatever the plan. */
  predicate Usable(db: Database, c: Id) {
    && c in db.connections && db.connections[c].active
    && var row := db.connections[c];
       && row.owner in db.principals && db.principals[row.owner].org == row.org && db.principals[row.owner].active
       && row.instance in db.instances && db.instances[row.instance].active
  }

  /** `resolve_connection` answers with an identity. */
  predicate Authenticates(cfg: Config, db: Database, c: Id) {
    && Usable(db, c)
    && var row := db.connections[c];
       var limits := LimitsFor(cfg, db.accounts, row.org);
       cfg.metered ==>
         && (limits.maxConnections.Some? ==> Eligible(ConnectionAges(db, row.org), limits.maxConnections, c))
         && (limits.maxInstances.Some? ==> Eligible(InstanceAges(db, row.org), limits.maxInstances, row.instance))
         && (limits.maxUsers.Some? ==> Eligible(PrincipalAges(db, row.org), limits.maxUsers, row.owner))
  }

  /** The identity that a resolved connection acts as. */
  datatype Auth = Auth(principal: Id, connection: Id, instance: Id)

  /** `resolve_connection`: row, owner, instance, then the three ceilings in turn. */
  method ResolveConnection(cfg: Config, sess: Session, c: Id) returns (auth: Option<Auth>)
    ensures auth.Some? <==> Authenticates(cfg, sess.Tables(), c)
    ensures auth.Some? ==> auth.value == Auth(sess.connections[c].owner, c, sess.connections[c].instance)
  {
    hide LimitsFor, Eligible, ConnectionAges, InstanceAges, PrincipalAges;
    var db := sess.Tables();
    if c !in sess.connections || !sess.connections[c].active { return None; }
    var row := sess.connections[c];
    if row.owner !in sess.principals || sess.principals[row.owner].org != row.org || !sess.principals[row.owner].active { return None; }
    if row.instance !in sess.instances || !sess.instances[row.instance].active { return None; }
    if cfg.metered {
      var limits := LimitsFor(cfg, sess.accounts, row.org);
      var checks := [(ConnectionAges(db, row.org), limits.maxConnections, c),
                     (InstanceAges(db, row.org), limits.maxInstances, row.instance),
                     (PrincipalAges(db, row.org), limits.maxUsers, row.owner)];
      for i := 0 to 3
        invariant forall j :: 0 <= j < i && checks[j].1.Some? ==> Eligible(checks[j].0, checks[j].1, checks[j].2)
      {
        if checks[i].1.Some? && !Eligible(checks[i].0, checks[i].1, checks[i].2) { return None; }
      }
      assert checks[0].1.Some? ==> Eligible(checks[0].0, checks[0].1, checks[0].2);
      assert checks[1].1.Some? ==> Eligible(checks[1].0, checks[1].1, checks[1].2);
      assert checks[2].1.Some? ==> Eligible(checks[2].0, checks[2].1, checks[2].2);
    }
    return Some(Auth(row.owner, c, row.instance));
  }

  /** Under one plan, whenever a connection authenticates, so does every active one of the same owner and instance
      that was created before it. */
  lemma OlderAuthenticates(cfg: Config, db: Database, older: Id, newer: Id)
    requires Authenticates(cfg, db, newer) && older in db.connections && db.connections[older].active
    requires var a, b := db.connections[older], db.connections[newer];
      a.org == b.org && a.owner == b.owner && a.instance == b.instance && a.created < b.created
    ensures Authenticates(cfg, db, older)
  {
    hide Eligible, LimitsFor, InstanceAges, PrincipalAges;
    var org := db.connections[newer].org;
    var ages, ceiling := ConnectionAges(db, org), LimitsFor(cfg, db.accounts, org).maxConnections;
    if Eligible(ages, ceiling, newer) { OlderGoesFirst(ages, ceiling, older, newer); }
  }

  // ---------------------------------------------------------------- how many authenticate

  ghost function Authenticated(cfg: Config, db: Database, org: Id): set<Id> {
    set c | c in db.connections && db.connections[c].org == org && Authenticates(cfg, db, c)
  }

  ghost function Owners(db: Database, s: set<Id>): set<Id> {
    set c | c in s && c in db.connections :: db.connections[c].owner
  }

  ghost function Instances(db: Database, s: set<Id>): set<Id> {
    set c | c in s && c in db.connections :: db.connections[c].instance
  }

  /** In every state the authenticating connections, their owners and their instances fit the plan. */
  lemma AuthenticatedFit(cfg: Config, db: Database, org: Id)
    requires cfg.metered
    ensures var limits := LimitsFor(cfg, db.accounts, org); var live := Authenticated(cfg, db, org);
      && (limits.maxConnections.Some? ==> |live| <= limits.maxConnections.value)
      && (limits.maxUsers.Some? ==> |Owners(db, live)| <= limits.maxUsers.value)
      && (limits.maxInstances.Some? ==> |Instances(db, live)| <= limits.maxInstances.value)
  {
    hide Eligible, LimitsFor, ConnectionAges, InstanceAges, PrincipalAges;
    var limits, live := LimitsFor(cfg, db.accounts, org), Authenticated(cfg, db, org);
    if limits.maxConnections.Some? { EligibleFit(ConnectionAges(db, org), limits.maxConnections.value, live); }
    if limits.maxUsers.Some? { EligibleFit(PrincipalAges(db, org), limits.maxUsers.value, Owners(db, live)); }
    if limits.maxInstances.Some? { EligibleFit(InstanceAges(db, org), limits.maxInstances.value, Instances(db, live)); }
  }

  // ---------------------------------------------------------------- issuing and revoking

  lemma AgesOfActive(db: Database, org: Id)
    ensures ConnectionAges(db, org).Keys == ActiveConnections(db, org)
  {
  }

  /** A new connection of one organisation in its age table, and in no other. */
  lemma IssuedAges(db: Database, d: Database, id: Id, row: Connection, org: Id)
    requires id !in db.connections && row.active && d.connections == db.connections[id := row]
    ensures ConnectionAges(d, org) == if row.org == org then ConnectionAges(db, org)[id := row.created] else ConnectionAges(db, org)
  {
  }

  lemma RevokedAges(db: Database, d: Database, id: Id, org: Id)
    requires id in db.connections && d.connections == db.connections[id := db.connections[id].(active := false)]
    ensures ConnectionAges(d, org) == ConnectionAges(db, org) - {id}
  {
  }

  lemma SameAges(db: Database, d: Database, org: Id)
    requires d.instances == db.instances && d.principals == db.principals
    ensures InstanceAges(d, org) == InstanceAges(db, org) && PrincipalAges(d, org) == PrincipalAges(db, org)
  {
  }

  /** A connection that keeps its row and its place keeps authenticating. */
  lemma StillAuthenticates(cfg: Config, db: Database, d: Database, c: Id)
    requires Authenticates(cfg, db, c)
    requires d.accounts == db.accounts && d.instances == db.instances && d.principals == db.principals
    requires c in d.connections && d.connections[c] == db.connections[c]
    requires var org := db.connections[c].org;
      var ceiling := LimitsFor(cfg, db.accounts, org).maxConnections;
      cfg.metered && ceiling.Some? && Eligible(ConnectionAges(db, org), ceiling, c) ==> Eligible(ConnectionAges(d, org), ceiling, c)
    ensures Authenticates(cfg, d, c)
  {
    hide Eligible, LimitsFor, ConnectionAges, InstanceAges, PrincipalAges;
    SameAges(db, d, db.connections[c].org);
  }

  /** Issuing a connection knocks out none that authenticated before. */
  lemma IssueKnocksOutNone(cfg: Config, db: Database, a: Id, op: SlotOps.SlotOp, c: Id)
    requires db.connections.Keys <= db.used
    requires a in db.principals && op.Issue? && SlotOps.Issued(cfg, db, a, op).Ok?
    requires Authenticates(cfg, db, c)
    ensures Authenticates(cfg, SlotOps.Issued(cfg, db, a, op).value, c)
  {
    hide Eligible, LimitsFor, ConnectionAges, Authenticates, UsageLocked, PeopleOps.Member, ActiveConnections;
    var d := SlotOps.Issued(cfg, db, a, op).value;
    var row := Connection(db.principals[a].org, op.owner, op.instance, op.digest, true, op.now);
    AuthenticRow(cfg, db, c);
    var org := db.connections[c].org;
    IssuedAges(db, d, op.id, row, org);
    AgesOfActive(db, org);
    var ages, ceiling := ConnectionAges(db, org), LimitsFor(cfg, db.accounts, org).maxConnections;
    if cfg.metered && ceiling.Some? && Eligible(ages, ceiling, c) && row.org == org {
      EligibleRow(ages, ceiling, c);
      NewIsNoRow(db, org, op.id);
      InsertedKeeps(ages, ceiling, op.id, op.now, c);
    }
    StillAuthenticates(cfg, db, d, c);
  }

  lemma AuthenticRow(cfg: Config, db: Database, c: Id)
    requires Authenticates(cfg, db, c)
    ensures c in db.connections && db.connections[c].active
  {
  }

  lemma EligibleRow(ages: Ages, ceiling: Option<nat>, c: Id)
    requires Eligible(ages, ceiling, c)
    ensures c in ages
  {
  }

  lemma NewIsNoRow(db: Database, org: Id, id: Id)
    requires id !in db.connections
    ensures id !in ConnectionAges(db, org)
  {
  }

  /** Revoking a connection knocks out no other. */
  lemma RevokeKnocksOutNone(cfg: Config, db: Database, a: Id, op: SlotOps.SlotOp, c: Id)
    requires a in db.principals && op.Revoke? && SlotOps.Revoked(db, a, op).Ok?
    requires Authenticates(cfg, db, c) && c != op.connection
    ensures Authenticates(cfg, SlotOps.Revoked(db, a, op).value, c)
  {
    hide Eligible, LimitsFor, ConnectionAges, Authenticates;
    var d := SlotOps.Revoked(db, a, op).value;
    AuthenticRow(cfg, db, c);
    var org := db.connections[c].org;
    RevokedAges(db, d, op.connection, org);
    var ages, ceiling := ConnectionAges(db, org), LimitsFor(cfg, db.accounts, org).maxConnections;
    if Eligible(ages, ceiling, c) { RemovedKeeps(ages, ceiling, op.connection, c); }
    StillAuthenticates(cfg, db, d, c);
  }

  // ---------------------------------------------------------------- every dispatch

  /** The same, for the three tables and the accounts that decide authentication. */
  lemma SameDeciders(cfg: Config, db: Database, d: Database, c: Id)
    requires Authenticates(cfg, db, c)
    requires d.connections == db.connections && d.instances == db.instances && d.principals == db.principals && d.accounts == db.accounts
    ensures Authenticates(cfg, d, c)
  {
    hide Eligible, LimitsFor;
    StillAuthenticates(cfg, db, d, c) by { AgesAgree(db, d, db.connections[c].org); }
  }

  lemma AgesAgree(db: Database, d: Database, org: Id)
    requires d.connections == db.connections
    ensures ConnectionAges(d, org) == ConnectionAges(db, org)
  {
  }

  lemma InstanceKnocksOutNone(cfg: Config, db: Database, a: Id, op: SlotOps.SlotOp, c: Id)
    requires db.instances.Keys <= db.used
    requires a in db.principals && op.CreateInstance? && SlotOps.InstanceCreated(cfg, db, a, op).Ok?
    requires Authenticates(cfg, db, c)
    ensures Authenticates(cfg, SlotOps.InstanceCreated(cfg, db, a, op).value, c)
  {
    hide Eligible, LimitsFor, ConnectionAges, InstanceAges, PrincipalAges, UsageLocked, ActiveInstances;
    var d := SlotOps.InstanceCreated(cfg, db, a, op).value;
    var row := db.connections[c];
    var ceiling := LimitsFor(cfg, db.accounts, row.org).maxInstances;
    AgesAgree(db, d, row.org);
    PrincipalAgesAgree(db, d, row.org);
    InsertedInstance(db, d, op.id, Instance(db.principals[a].org, op.name, true, op.now), row.org);
    InstanceAgesKeys(db, row.org);
    if cfg.metered && ceiling.Some? && row.org == db.principals[a].org {
      EligibleRow(InstanceAges(db, row.org), ceiling, row.instance);
      InsertedKeeps(InstanceAges(db, row.org), ceiling, op.id, op.now, row.instance);
    }
  }

  lemma PrincipalAgesAgree(db: Database, d: Database, org: Id)
    requires d.principals == db.principals
    ensures PrincipalAges(d, org) == PrincipalAges(db, org)
  {
  }

  lemma InstanceAgesAgree(db: Database, d: Database, org: Id)
    requires d.instances == db.instances
    ensures InstanceAges(d, org) == InstanceAges(db, org)
  {
  }

  lemma InsertedInstance(db: Database, d: Database, id: Id, row: Instance, org: Id)
    requires id !in db.instances && row.active && d.instances == db.instances[id := row]
    ensures InstanceAges(d, org) == if row.org == org then InstanceAges(db, org)[id := row.created] else InstanceAges(db, org)
    ensures id !in InstanceAges(db, org)
  {
  }

  lemma InstanceAgesKeys(db: Database, org: Id)
    ensures InstanceAges(db, org).Keys == ActiveInstances(db, org)
  {
  }

  lemma InsertedPrincipal(db: Database, d: Database, id: Id, row: Principal, org: Id)
    requires id !in db.principals && row.active && d.principals == db.principals[id := row]
    ensures PrincipalAges(d, org) == if row.org == org then PrincipalAges(db, org)[id := row.created] else PrincipalAges(db, org)
    ensures id !in PrincipalAges(db, org)
  {
  }

  lemma PrincipalAgesKeys(db: Database, org: Id)
    ensures PrincipalAges(db, org).Keys == ActiveUsers(db, org)
  {
  }

  lemma RetiredPrincipal(db: Database, d: Database, id: Id, org: Id)
    requires id in db.principals && d.principals == db.principals[id := db.principals[id].(active := false)]
    ensures PrincipalAges(d, org) == PrincipalAges(db, org) - {id}
  {
    forall p ensures p in PrincipalAges(d, org) <==> p in PrincipalAges(db, org) && p != id {}
  }

  /** A new principal is admitted only below the ceiling, so it knocks out no owner. */
  lemma NewPrincipalKnocksOutNone(cfg: Config, db: Database, a: Id, op: PeopleOps.PeopleOp, c: Id)
    requires db.principals.Keys <= db.used
    requires a in db.principals && op.CreatePrincipal? && PeopleOps.PrincipalCreated(cfg, db, a, op).Ok?
    requires Authenticates(cfg, db, c)
    ensures Authenticates(cfg, PeopleOps.PrincipalCreated(cfg, db, a, op).value, c)
  {
    hide Eligible, LimitsFor, ConnectionAges, InstanceAges, PrincipalAges, UsageLocked, ActiveUsers, PeopleOps.NameOrTokenTaken,
         ScopeOps.PersonalEnsured;
    var d := PeopleOps.PrincipalCreated(cfg, db, a, op).value;
    var row := db.connections[c];
    var ceiling := LimitsFor(cfg, db.accounts, row.org).maxUsers;
    AgesAgree(db, d, row.org);
    InstanceAgesAgree(db, d, row.org);
    InsertedPrincipal(db, d, op.id, Principal(db.principals[a].org, op.name, op.digest, false, true, op.now), row.org);
    PrincipalAgesKeys(db, row.org);
    if cfg.metered && ceiling.Some? && row.org == db.principals[a].org {
      EligibleRow(PrincipalAges(db, row.org), ceiling, row.owner);
      InsertedKeeps(PrincipalAges(db, row.org), ceiling, op.id, op.now, row.owner);
    }
  }

  lemma RevokedPrincipalKnocksOutNone(cfg: Config, db: Database, a: Id, op: PeopleOps.PeopleOp, c: Id)
    requires a in db.principals && op.RevokePrincipal? && PeopleOps.PrincipalRevoked(db, a, op).Ok?
    requires Authenticates(cfg, db, c) && db.connections[c].owner != op.principal
    ensures Authenticates(cfg, PeopleOps.PrincipalRevoked(db, a, op).value, c)
  {
    hide Eligible, LimitsFor, ConnectionAges, InstanceAges, PrincipalAges, PeopleOps.ActiveAdmins;
    var d := PeopleOps.PrincipalRevoked(db, a, op).value;
    var row := db.connections[c];
    var ceiling := LimitsFor(cfg, db.accounts, row.org).maxUsers;
    AgesAgree(db, d, row.org);
    InstanceAgesAgree(db, d, row.org);
    RetiredPrincipal(db, d, op.principal, row.org);
    if Eligible(PrincipalAges(db, row.org), ceiling, row.owner) {
      RemovedKeeps(PrincipalAges(db, row.org), ceiling, op.principal, row.owner);
    }
  }

  /** The dispatch revokes this connection or its owner. */
  predicate Retires(db: Database, op: Op, c: Id)
    requires c in db.connections
  {
    || (op.OnSlots? && op.slots == SlotOps.Revoke(c))
    || (op.OnPeople? && op.people == PeopleOps.RevokePrincipal(db.connections[c].owner))
  }

  lemma PeopleKnockOutNone(cfg: Config, db: Database, a: Id, op: PeopleOps.PeopleOp, c: Id)
    requires db.principals.Keys <= db.used && a in db.principals && PeopleOps.Performed(cfg, db, a, op).Ok?
    requires Authenticates(cfg, db, c) && c in db.connections && op != PeopleOps.RevokePrincipal(db.connections[c].owner)
    ensures Authenticates(cfg, PeopleOps.Performed(cfg, db, a, op).value, c)
  {
    hide Authenticates, PeopleOps.PrincipalCreated, PeopleOps.PrincipalRevoked, PeopleOps.RoleGranted, PeopleOps.GrantRevoked;
    match op
    case CreatePrincipal(_, _, _, _, _) => NewPrincipalKnocksOutNone(cfg, db, a, op, c);
    case RevokePrincipal(_) => RevokedPrincipalKnocksOutNone(cfg, db, a, op, c);
    case GrantRole(_, _, _) => GrantTables(db, a, op); SameDeciders(cfg, db, PeopleOps.Performed(cfg, db, a, op).value, c);
    case RevokeGrant(_, _) => GrantTables(db, a, op); SameDeciders(cfg, db, PeopleOps.Performed(cfg, db, a, op).value, c);
  }

  lemma SlotsKnockOutNone(cfg: Config, db: Database, a: Id, op: SlotOps.SlotOp, c: Id)
    requires SlotsKnown(db) && a in db.principals && SlotOps.Performed(cfg, db, a, op).Ok?
    requires Authenticates(cfg, db, c) && op != SlotOps.Revoke(c)
    ensures Authenticates(cfg, SlotOps.Performed(cfg, db, a, op).value, c)
  {
    hide Authenticates, SlotOps.InstanceCreated, SlotOps.Issued, SlotOps.Revoked;
    match op
    case CreateInstance(_, _, _) => InstanceKnocksOutNone(cfg, db, a, op, c);
    case Issue(_, _, _, _, _) => IssueKnocksOutNone(cfg, db, a, op, c);
    case Revoke(_) => RevokeKnocksOutNone(cfg, db, a, op, c);
  }

  /** Under one plan, no dispatch stops a connection from authenticating, except one that revokes it
      or its owner; creation times do not matter, because every insertion is admitted below its ceiling. */
  lemma DispatchKnocksOutNone(cfg: Config, db: Database, who: Identity, op: Op, c: Id)
    requires SlotsKnown(db) && db.principals.Keys <= db.used
    requires Dispatched(cfg, db, who, op).Ok? && Authenticates(cfg, db, c) && !Retires(db, op, c)
    ensures Authenticates(cfg, Dispatched(cfg, db, who, op).value, c)
  {
    hide Authenticates, ScopeOps.Performed, MemoryOps.Performed, JobOps.Performed, SlotOps.Performed, PeopleOps.Performed;
    AuthenticRow(cfg, db, c);
    var d := Dispatched(cfg, db, who, op).value;
    match op
    case OnScopes(x) => ScopeFrame(cfg, db, who.id, x); SameDeciders(cfg, db, d, c);
    case OnMemory(x) => MemoryFrame(cfg, db, who.id, x); SameDeciders(cfg, db, d, c);
    case OnJobs(x) => JobFrame(cfg, db, who.id, x); SameDeciders(cfg, db, d, c);
    case OnPeople(x) => PeopleKnockOutNone(cfg, db, who.id, x, c);
    case OnSlots(x) => SlotsKnockOutNone(cfg, db, who.id, x, c);
  }

  lemma GrantTables(db: Database, a: Id, op: PeopleOps.PeopleOp)
    requires a in db.principals
    ensures op.GrantRole? && PeopleOps.RoleGranted(db, a, op).Ok? ==>
      var d := PeopleOps.RoleGranted(db, a, op).value; d == db.(grants := d.grants)
    ensures op.RevokeGrant? && PeopleOps.GrantRevoked(db, a, op).Ok? ==>
      var d := PeopleOps.GrantRevoked(db, a, op).value; d == db.(grants := d.grants)
  {
    hide ScopeTree.RequireRole;
  }
}
