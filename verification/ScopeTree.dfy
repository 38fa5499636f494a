/** Scopes, their ancestors, and what a principal may do on them. */
module ScopeTree {
  import opened Base
  import opened Tables

  const MAX_WALK := 100

  type Scopes = map<Id, Scope>

  // ---------------------------------------------------------------- the bounded walk

  /** The parent row, if the parent exists in the given organisation. */
  function ParentIn(scopes: Scopes, org: Id, sid: Id): Option<Id>
    requires sid in scopes
  {
    var parent := scopes[sid].parent;
    if parent.Some? && parent.value in scopes && scopes[parent.value].org == org then parent else None
  }

  /** The scope followed by its ancestors; gives up when `steps` rounds found no end. */
  function ChainFrom(scopes: Scopes, org: Id, sid: Id, steps: nat): Result<seq<Id>>
    requires sid in scopes
    decreases steps
  {
    if steps == 0 then Err(InvalidState)
    else
      var parent := ParentIn(scopes, org, sid);
      if parent.None? then Ok([sid])
      else
        var rest :- ChainFrom(scopes, org, parent.value, steps - 1);
        Ok([sid] + rest)
  }

  function Chain(scopes: Scopes, sid: Id): Result<seq<Id>>
    requires sid in scopes
  {
    ChainFrom(scopes, scopes[sid].org, sid, MAX_WALK)
  }

  // ---------------------------------------------------------------- roles and permissions

  predicate Owns(db: Database, p: Id, sid: Id) {
    sid in db.owners && db.owners[sid].principal == p
  }

  predicate Granted(grants: map<(Id, Id), Grant>, p: Id, org: Id, chain: seq<Id>, role: Role) {
    exists s :: s in chain && (p, s) in grants && grants[(p, s)] == Grant(org, role)
  }

  /** The highest role that a grant on the chain gives. */
  function GrantedRole(grants: map<(Id, Id), Grant>, p: Id, org: Id, chain: seq<Id>): Option<Role> {
    if Granted(grants, p, org, chain, Admin) then Some(Admin)
    else if Granted(grants, p, org, chain, Reviewer) then Some(Reviewer)
    else if Granted(grants, p, org, chain, Writer) then Some(Writer)
    else if Granted(grants, p, org, chain, Reader) then Some(Reader)
    else None
  }

  function RoleFor(db: Database, p: Id, sid: Id): Result<Option<Role>>
    requires p in db.principals && sid in db.scopes
  {
    var me, scope := db.principals[p], db.scopes[sid];
    if scope.org != me.org then Ok(None)
    else if scope.kind == Personal then Ok(if Owns(db, p, sid) then Some(Admin) else None)
    else if me.admin || Owns(db, p, sid) then Ok(Some(Admin))
    else
      var chain :- Chain(db.scopes, sid);
      Ok(GrantedRole(db.grants, p, me.org, chain))
  }

  predicate AtLeast(role: Option<Role>, minimum: Role) {
    role.Some? && role.value.Rank() >= minimum.Rank()
  }

  function RequireRole(db: Database, p: Id, sid: Id, minimum: Role): Outcome
    requires p in db.principals && sid in db.scopes
  {
    var role := RoleFor(db, p, sid);
    if role.Err? then Fail(role.code) else Need(AtLeast(role.value, minimum), Denied)
  }

  datatype Right = Export | Delete

  predicate Allows(policy: Policy, right: Right) {
    match right case Export => policy.canExport case Delete => policy.canDelete
  }

  /** No policy of `p` on the chain withholds the right. */
  predicate ChainAllows(policies: map<(Id, Id), Policy>, org: Id, chain: seq<Id>, p: Id, right: Right) {
    forall s :: s in chain && (s, p) in policies && policies[(s, p)].org == org ==> Allows(policies[(s, p)], right)
  }

  /** `_permission_flags`: whether `p` may export or delete the contents of a scope. */
  function Permitted(db: Database, p: Id, sid: Id, right: Right): Result<bool>
    requires p in db.principals && sid in db.scopes
  {
    var role :- RoleFor(db, p, sid);
    var chain :- Chain(db.scopes, sid);
    Ok(role == Some(Admin) && ChainAllows(db.policies, db.principals[p].org, chain, p, right))
  }

  function GetScope(db: Database, org: Id, sid: Id): Result<Scope> {
    if sid in db.scopes && db.scopes[sid].org == org then Ok(db.scopes[sid]) else Err(NotFound)
  }

  // ---------------------------------------------------------------- the forest

  /** The k-th ancestor, with no bound on the walk. */
  ghost function Up(scopes: Scopes, sid: Id, k: nat): (up: Option<Id>)
    ensures up.Some? ==> up.value in scopes
    decreases k
  {
    if sid !in scopes then None
    else if k == 0 then Some(sid)
    else if scopes[sid].parent.None? then None
    else Up(scopes, scopes[sid].parent.value, k - 1)
  }

  ghost predicate Ancestor(scopes: Scopes, sid: Id, a: Id) {
    exists k: nat :: Up(scopes, sid, k) == Some(a)
  }

  /** The walk up from a scope ends. */
  ghost predicate Rooted(scopes: Scopes, sid: Id) {
    exists k: nat :: Up(scopes, sid, k) == None
  }

  /** Parents exist in the same organisation; departments and projects hang below an organisation
      or a department; organisations and personal scopes are roots. Hence projects and personal
      scopes are leaves. */
  ghost predicate WellPlaced(scopes: Scopes, sid: Id)
    requires sid in scopes
  {
    var s := scopes[sid];
    if s.kind == Department || s.kind == Project then
      && s.parent.Some? && s.parent.value in scopes
      && scopes[s.parent.value].org == s.org
      && (scopes[s.parent.value].kind == Organisation || scopes[s.parent.value].kind == Department)
    else s.parent == None
  }

  ghost predicate Forest(scopes: Scopes) {
    forall s :: s in scopes ==> WellPlaced(scopes, s) && Rooted(scopes, s)
  }

  lemma {:induction false} UpMonotone(scopes: Scopes, sid: Id, k: nat, more: nat)
    requires Up(scopes, sid, k) == None && k <= more
    ensures Up(scopes, sid, more) == None
    decreases k
  {
    if sid in scopes && k > 0 && scopes[sid].parent.Some? {
      UpMonotone(scopes, scopes[sid].parent.value, k - 1, more - 1);
    }
  }

  lemma {:induction false} UpAdds(scopes: Scopes, sid: Id, j: nat, k: nat)
    requires Up(scopes, sid, j).Some?
    ensures Up(scopes, sid, j + k) == Up(scopes, Up(scopes, sid, j).value, k)
    decreases j
  {
    if j > 0 { UpAdds(scopes, scopes[sid].parent.value, j - 1, k); }
  }

  ghost predicate ParentsHome(scopes: Scopes) {
    forall s :: s in scopes && scopes[s].parent.Some? ==>
      scopes[s].parent.value in scopes && scopes[scopes[s].parent.value].org == scopes[s].org
  }

  /** The walk returns exactly the ancestor path, or raises exactly when 100 ancestors exist. */
  lemma {:induction false} ChainFromExact(scopes: Scopes, org: Id, sid: Id, steps: nat)
    requires ParentsHome(scopes) && sid in scopes && scopes[sid].org == org
    ensures ChainFrom(scopes, org, sid, steps).Err? <==> Up(scopes, sid, steps).Some?
    ensures var chain := ChainFrom(scopes, org, sid, steps);
      chain.Ok? ==> && 1 <= |chain.value| <= steps
                    && Up(scopes, sid, |chain.value|) == None
                    && forall i :: 0 <= i < |chain.value| ==> Up(scopes, sid, i) == Some(chain.value[i])
    decreases steps
  {
    if steps > 0 && scopes[sid].parent.Some? {
      ChainFromExact(scopes, org, scopes[sid].parent.value, steps - 1);
    }
  }

  /** `_scope_chain` returns exactly the ancestors of the scope, or raises because there are too many. */
  lemma ChainIsAncestors(scopes: Scopes, sid: Id)
    requires Forest(scopes) && sid in scopes
    ensures Chain(scopes, sid).Err? <==> Up(scopes, sid, MAX_WALK).Some?
    ensures Chain(scopes, sid).Ok? ==> forall a :: a in Chain(scopes, sid).value <==> Ancestor(scopes, sid, a)
  {
    ChainFromExact(scopes, scopes[sid].org, sid, MAX_WALK);
    if Chain(scopes, sid).Ok? {
      var chain := Chain(scopes, sid).value;
      forall a ensures a in chain <==> Ancestor(scopes, sid, a) {
        if a in chain {
          var i :| 0 <= i < |chain| && chain[i] == a;
          assert Up(scopes, sid, i) == Some(a);
        }
        if Ancestor(scopes, sid, a) {
          var k: nat :| Up(scopes, sid, k) == Some(a);
          if k >= |chain| { UpMonotone(scopes, sid, |chain|, k); }
        }
      }
    }
  }

  /** In a forest no scope is its own proper ancestor. */
  lemma Acyclic(scopes: Scopes, sid: Id, k: nat)
    requires Forest(scopes) && sid in scopes && k > 0
    ensures Up(scopes, sid, k) != Some(sid)
  {
    if Up(scopes, sid, k) == Some(sid) {
      var end: nat :| Up(scopes, sid, end) == None;
      Cycles(scopes, sid, k, end);
    }
  }

  lemma {:induction false} Cycles(scopes: Scopes, sid: Id, k: nat, end: nat)
    requires k > 0 && Up(scopes, sid, k) == Some(sid)
    ensures Up(scopes, sid, end) != None
    decreases end
  {
    if end >= k {
      UpAdds(scopes, sid, k, end - k);
      Cycles(scopes, sid, k, end - k);
    } else if Up(scopes, sid, end) == None {
      UpMonotone(scopes, sid, end, k);
    }
  }

  // ---------------------------------------------------------------- denials

  /** A policy of `p` on the scope or one of its ancestors withholds the right. */
  ghost predicate DeniedAt(db: Database, sid: Id, p: Id, right: Right, k: nat) {
    var a := Up(db.scopes, sid, k);
    a.Some? && (a.value, p) in db.policies && !Allows(db.policies[(a.value, p)], right)
  }

  ghost predicate Denies(db: Database, sid: Id, p: Id, right: Right) {
    exists k: nat :: DeniedAt(db, sid, p, right, k)
  }
}
