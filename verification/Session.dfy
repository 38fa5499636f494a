/** One database session: the tables that a transaction reads and changes in place, and the questions
    about authority that every operation asks of them. */
module Sessions {
  import opened Base
  import opened Tables
  import opened ScopeTree

  class Session {
    var used: set<Id>
    var orgs: map<Id, string>
    var principals: map<Id, Principal>
    var scopes: map<Id, Scope>
    var owners: map<Id, Owner>
    var policies: map<(Id, Id), Policy>
    var grants: map<(Id, Id), Grant>
    var locks: set<(Id, string)>
    var records: map<(Id, string), Record>
    var versions: map<(Id, string, nat), Version>
    var proposals: map<Id, Proposal>
    var messages: map<Id, Message>
    var jobs: map<Id, Job>
    var instances: map<Id, Instance>
    var connections: map<Id, Connection>
    var usage: map<Id, int>
    var accounts: map<Id, Account>

    /** The state of the database as this session sees it. */
    function Tables(): Database
      reads this
    {
      Database(used, orgs, principals, scopes, owners, policies, grants, locks, records, versions, proposals, messages, jobs,
               instances, connections, usage, accounts)
    }

    constructor ()
      ensures Tables() == EMPTY
    {
      used, orgs, principals, scopes, owners, policies, grants := {}, map[], map[], map[], map[], map[], map[];
      locks, records, versions, proposals, messages, jobs := {}, map[], map[], map[], map[], map[];
      instances, connections, usage, accounts := map[], map[], map[], map[];
    }

    /** Everything since the snapshot is undone. */
    method Rollback(snapshot: Database)
      modifies this
      ensures Tables() == snapshot
    {
      RestorePeople(snapshot);
      RestoreScopes(snapshot);
      RestoreAccess(snapshot);
      RestoreMemory(snapshot);
      RestoreWork(snapshot);
      RestoreBilling(snapshot);
    }

    method RestorePeople(snapshot: Database)
      modifies `used, `orgs, `principals
      ensures Tables() == old(Tables()).(used := snapshot.used, orgs := snapshot.orgs, principals := snapshot.principals)
    {
      used, orgs, principals := snapshot.used, snapshot.orgs, snapshot.principals;
    }

    method RestoreScopes(snapshot: Database)
      modifies `scopes, `owners, `policies
      ensures Tables() == old(Tables()).(scopes := snapshot.scopes, owners := snapshot.owners, policies := snapshot.policies)
    {
      scopes, owners, policies := snapshot.scopes, snapshot.owners, snapshot.policies;
    }

    method RestoreAccess(snapshot: Database)
      modifies `grants, `locks, `records
      ensures Tables() == old(Tables()).(grants := snapshot.grants, locks := snapshot.locks, records := snapshot.records)
    {
      grants, locks, records := snapshot.grants, snapshot.locks, snapshot.records;
    }

    method RestoreMemory(snapshot: Database)
      modifies `versions, `proposals, `messages
      ensures Tables() == old(Tables()).(versions := snapshot.versions, proposals := snapshot.proposals, messages := snapshot.messages)
    {
      versions, proposals, messages := snapshot.versions, snapshot.proposals, snapshot.messages;
    }

    method RestoreWork(snapshot: Database)
      modifies `jobs, `instances, `connections
      ensures Tables() == old(Tables()).(jobs := snapshot.jobs, instances := snapshot.instances, connections := snapshot.connections)
    {
      jobs, instances, connections := snapshot.jobs, snapshot.instances, snapshot.connections;
    }

    method RestoreBilling(snapshot: Database)
      modifies `usage, `accounts
      ensures Tables() == old(Tables()).(usage := snapshot.usage, accounts := snapshot.accounts)
    {
      usage, accounts := snapshot.usage, snapshot.accounts;
    }
  }

  /** An operation ended as its specification says: with the same error code, or in the same state.
      A state that an error leaves behind does not matter, because it is rolled back. */
  ghost predicate Answers(r: Result<()>, spec: Result<Database>, after: Database) {
    match r
    case Ok(_) => spec == Ok(after)
    case Err(code) => spec == Err(code)
  }

  // ---------------------------------------------------------------- authority

  method FindScope(sess: Session, org: Id, sid: Id) returns (r: Result<Scope>)
    ensures r == GetScope(sess.Tables(), org, sid)
    ensures r.Ok? <==> sid in sess.scopes && sess.scopes[sid].org == org
    ensures r.Ok? ==> r.value == sess.scopes[sid]
  {
    if sid in sess.scopes && sess.scopes[sid].org == org { return Ok(sess.scopes[sid]); }
    return Err(NotFound);
  }

  /** What the part of the chain already walked adds to the part still to come. */
  ghost function After(walked: seq<Id>, rest: Result<seq<Id>>): Result<seq<Id>> {
    if rest.Ok? then Ok(walked + rest.value) else rest
  }

  lemma NothingWalked(rest: Result<seq<Id>>)
    ensures After([], rest) == rest
  {
    if rest.Ok? { assert [] + rest.value == rest.value; }
  }

  /** The bounded walk to the root: at most 100 rounds, each following one parent. */
  method ScopeChain(sess: Session, sid: Id) returns (r: Result<seq<Id>>)
    requires sid in sess.scopes
    ensures r == Chain(sess.scopes, sid)
  {
    var scopes, org := sess.scopes, sess.scopes[sid].org;
    var chain, current := [sid], sid;
    assert chain[..0] == [];
    NothingWalked(Chain(scopes, sid));
    for round := 0 to MAX_WALK
      invariant chain != [] && chain[|chain| - 1] == current && current in scopes
      invariant Chain(scopes, sid) == After(chain[..|chain| - 1], ChainFrom(scopes, org, current, MAX_WALK - round))
    {
      ghost var walked, here := chain[..|chain| - 1], current;
      assert walked + [here] == chain;
      var parent := scopes[current].parent;
      if parent.None? { return Ok(chain); }
      if parent.value !in scopes || scopes[parent.value].org != org { return Ok(chain); }
      chain := chain + [parent.value];
      current := parent.value;
      assert chain[..|chain| - 1] == walked + [here];
      OneRound(scopes, org, here, MAX_WALK - round, walked);
    }
    return Err(InvalidState);
  }

  lemma OneRound(scopes: Scopes, org: Id, here: Id, steps: nat, walked: seq<Id>)
    requires here in scopes && steps > 0 && ParentIn(scopes, org, here).Some?
    ensures var up := ParentIn(scopes, org, here).value;
      After(walked, ChainFrom(scopes, org, here, steps)) == After(walked + [here], ChainFrom(scopes, org, up, steps - 1))
  {
    var rest := ChainFrom(scopes, org, ParentIn(scopes, org, here).value, steps - 1);
    if rest.Ok? { assert walked + ([here] + rest.value) == walked + [here] + rest.value; }
  }

  function Higher(best: Option<Role>, row: Option<Grant>): Option<Role> {
    if row.None? then best
    else if best.Some? && best.value.Rank() >= row.value.role.Rank() then best
    else Some(row.value.role)
  }

  function GrantOn(grants: map<(Id, Id), Grant>, p: Id, org: Id, sid: Id): Option<Grant> {
    if (p, sid) in grants && grants[(p, sid)].org == org then Some(grants[(p, sid)]) else None
  }

  lemma GrantedExtends(grants: map<(Id, Id), Grant>, p: Id, org: Id, chain: seq<Id>, s: Id, role: Role)
    ensures Granted(grants, p, org, chain + [s], role)
       <==> Granted(grants, p, org, chain, role) || GrantOn(grants, p, org, s) == Some(Grant(org, role))
  {
    assert forall t :: t in chain + [s] <==> t in chain || t == s;
    if Granted(grants, p, org, chain, role) {
      var t :| t in chain && (p, t) in grants && grants[(p, t)] == Grant(org, role);
      assert t in chain + [s];
    }
    assert s in chain + [s];
  }

  /** One more scope on the chain can only raise the highest granted role. */
  lemma GrantedRoleExtends(grants: map<(Id, Id), Grant>, p: Id, org: Id, chain: seq<Id>, s: Id)
    ensures GrantedRole(grants, p, org, chain + [s]) == Higher(GrantedRole(grants, p, org, chain), GrantOn(grants, p, org, s))
  {
    hide Granted;
    var row := GrantOn(grants, p, org, s);
    assert row.Some? ==> row.value == Grant(org, row.value.role);
    GrantedExtends(grants, p, org, chain, s, Admin);
    GrantedExtends(grants, p, org, chain, s, Reviewer);
    GrantedExtends(grants, p, org, chain, s, Writer);
    GrantedExtends(grants, p, org, chain, s, Reader);
    if row.Some? { match row.value.role case Reader => case Writer => case Reviewer => case Admin => }
  }

  lemma EmptyGrants(grants: map<(Id, Id), Grant>, p: Id, org: Id)
    ensures GrantedRole(grants, p, org, []) == None
  {
  }

  /** `max(rows, key=rank)` over the grants on the chain. */
  method HighestGrant(sess: Session, p: Id, org: Id, chain: seq<Id>) returns (best: Option<Role>)
    ensures best == GrantedRole(sess.grants, p, org, chain)
    ensures best.Some? ==> exists s :: s in chain && (p, s) in sess.grants && sess.grants[(p, s)] == Grant(org, best.value)
    ensures forall s :: s in chain && (p, s) in sess.grants && sess.grants[(p, s)].org == org ==>
      best.Some? && best.value.Rank() >= sess.grants[(p, s)].role.Rank()
  {
    hide GrantedRole;
    best := None;
    EmptyGrants(sess.grants, p, org);
    for i := 0 to |chain|
      invariant best == GrantedRole(sess.grants, p, org, chain[..i])
      invariant best.Some? ==> exists s :: s in chain && (p, s) in sess.grants && sess.grants[(p, s)] == Grant(org, best.value)
      invariant forall j :: 0 <= j < i && (p, chain[j]) in sess.grants && sess.grants[(p, chain[j])].org == org ==>
        best.Some? && best.value.Rank() >= sess.grants[(p, chain[j])].role.Rank()
    {
      GrantedRoleExtends(sess.grants, p, org, chain[..i], chain[i]);
      assert chain[..i] + [chain[i]] == chain[..i + 1];
      best := Higher(best, GrantOn(sess.grants, p, org, chain[i]));
    }
    assert chain[..|chain|] == chain;
  }

  method RoleOn(sess: Session, p: Id, sid: Id) returns (r: Result<Option<Role>>)
    requires p in sess.principals && sid in sess.scopes
    ensures r == RoleFor(sess.Tables(), p, sid)
  {
    hide GrantedRole, Chain;
    var me, scope := sess.principals[p], sess.scopes[sid];
    if scope.org != me.org { return Ok(None); }
    var owns := sid in sess.owners && sess.owners[sid].principal == p;
    if scope.kind == Personal { return Ok(if owns then Some(Admin) else None); }
    if me.admin || owns { return Ok(Some(Admin)); }
    var chain :- ScopeChain(sess, sid);
    var best := HighestGrant(sess, p, me.org, chain);
    return Ok(best);
  }

  method Require(sess: Session, p: Id, sid: Id, minimum: Role) returns (o: Outcome)
    requires p in sess.principals && sid in sess.scopes
    ensures o == RequireRole(sess.Tables(), p, sid, minimum)
  {
    var role := RoleOn(sess, p, sid);
    if role.Err? { return Fail(role.code); }
    return Need(AtLeast(role.value, minimum), Denied);
  }

  /** The pair of flags that `_permission_flags` returns. */
  method PermissionFlags(sess: Session, p: Id, sid: Id) returns (r: Result<(bool, bool)>)
    requires p in sess.principals && sid in sess.scopes
    ensures Permitted(sess.Tables(), p, sid, Export) == if r.Ok? then Ok(r.value.0) else Err(r.code)
    ensures Permitted(sess.Tables(), p, sid, Delete) == if r.Ok? then Ok(r.value.1) else Err(r.code)
  {
    hide Chain, RoleFor;
    var role :- RoleOn(sess, p, sid);
    var eligible := role == Some(Admin);
    var chain :- ScopeChain(sess, sid);
    var org := sess.principals[p].org;
    var rows := set s | s in chain && (s, p) in sess.policies && sess.policies[(s, p)].org == org;
    return Ok((eligible && forall s :: s in rows ==> sess.policies[(s, p)].canExport,
               eligible && forall s :: s in rows ==> sess.policies[(s, p)].canDelete));
  }
}
