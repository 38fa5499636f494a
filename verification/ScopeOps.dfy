/** What every scope operation does to the database, as a function of the state before it. */
module ScopeOps {
  import opened Base
  import opened Tables
  import opened ScopeTree
  import Meter

  datatype ScopeOp =
    | CreateScope(name: string, kind: Kind, parent: Id, id: Id)
    | SetPolicy(scope: Id, principal: Id, canExport: bool, canDelete: bool)
    | SetOwner(scope: Id, principal: Id)
    | Move(scope: Id, parent: Id)
    | DeleteScope(scope: Id, contents: bool)
    | Merge(source: Id, target: Id)
    | OpenPersonal(id: Id)

  function NewId(db: Database, id: Id): Outcome {
    Need(id !in db.used, Conflict)
  }

  /** Some other scope under this parent already has the name. */
  predicate NameTaken(scopes: Scopes, parent: Id, name: string, except: set<Id>) {
    exists s :: s in scopes && s !in except && scopes[s].parent == Some(parent) && scopes[s].name == name
  }

  /** A new scope and its owner. */
  function ScopeAdded(db: Database, id: Id, row: Scope, owner: Id): Database {
    db.(used := db.used + {id}, scopes := db.scopes[id := row], owners := db.owners[id := Owner(row.org, owner)])
  }

  predicate Manageable(kind: Kind) { kind == Department || kind == Project }

  ghost function Created(db: Database, a: Id, op: ScopeOp): (r: Result<Database>)
    requires a in db.principals && op.CreateScope?
    ensures r.Ok? ==> r.value == db.(used := r.value.used, scopes := r.value.scopes, owners := r.value.owners) && db.used <= r.value.used
  {
    var org := db.principals[a].org;
    var parent :- GetScope(db, org, op.parent);
    :- RequireRole(db, a, op.parent, Admin);
    :- Need(parent.kind != Project && parent.kind != Personal, InvalidArgument);
    :- Need(Manageable(op.kind), InvalidArgument);
    :- NewId(db, op.id);
    :- Need(!NameTaken(db.scopes, op.parent, op.name, {}), Conflict);
    Ok(ScopeAdded(db, op.id, Scope(org, Some(op.parent), op.name, op.kind), a))
  }

  ghost function PolicySet(db: Database, a: Id, op: ScopeOp): (r: Result<Database>)
    requires a in db.principals && op.SetPolicy?
    ensures r.Ok? ==> r.value == db.(policies := r.value.policies)
  {
    var org := db.principals[a].org;
    :- Need(db.principals[a].admin, Denied);
    var _ :- GetScope(db, org, op.scope);
    :- Need(op.principal in db.principals && db.principals[op.principal].org == org, NotFound);
    Ok(db.(policies := db.policies[(op.scope, op.principal) := Policy(org, op.canExport, op.canDelete)]))
  }

  ghost function OwnerSet(db: Database, a: Id, op: ScopeOp): (r: Result<Database>)
    requires a in db.principals && op.SetOwner?
    ensures r.Ok? ==> r.value == db.(owners := r.value.owners)
  {
    var org := db.principals[a].org;
    :- Need(db.principals[a].admin, Denied);
    var scope :- GetScope(db, org, op.scope);
    :- Need(Manageable(scope.kind), Denied);
    :- Need(op.principal in db.principals && db.principals[op.principal].org == org
            && db.principals[op.principal].active, NotFound);
    Ok(db.(owners := db.owners[op.scope := Owner(org, op.principal)]))
  }

  // ---------------------------------------------------------------- restrictions that travel

  predicate Restrictive(policy: Policy) { !policy.canExport || !policy.canDelete }

  /** The principals that some policy on the chain restricts. */
  function Restricted(policies: map<(Id, Id), Policy>, org: Id, chain: seq<Id>): set<Id> {
    set k | k in policies && k.0 in chain && policies[k].org == org && Restrictive(policies[k]) :: k.1
  }

  /** The policy a destination ends with: what it had, narrowed by every policy on the chain. */
  function Narrowed(policies: map<(Id, Id), Policy>, org: Id, chain: seq<Id>, destination: Id, p: Id): Policy {
    var had := if (destination, p) in policies then policies[(destination, p)] else Policy(org, true, true);
    Policy(had.org, had.canExport && ChainAllows(policies, org, chain, p, Export),
                    had.canDelete && ChainAllows(policies, org, chain, p, Delete))
  }

  /** The policies after the restrictions of a chain were retained on a destination. */
  function Retained(policies: map<(Id, Id), Policy>, org: Id, chain: seq<Id>, destination: Id): map<(Id, Id), Policy> {
    policies + map p | p in Restricted(policies, org, chain) ::
                 (destination, p) := Narrowed(policies, org, chain, destination, p)
  }

  ghost function Moved(db: Database, a: Id, op: ScopeOp): (r: Result<Database>)
    requires a in db.principals && op.Move?
    ensures r.Ok? ==> r.value == db.(policies := r.value.policies, scopes := r.value.scopes)
  {
    var org := db.principals[a].org;
    var scope :- GetScope(db, org, op.scope);
    var parent :- GetScope(db, org, op.parent);
    :- RequireRole(db, a, op.scope, Admin);
    :- RequireRole(db, a, op.parent, Admin);
    :- Need(Manageable(scope.kind) && (parent.kind == Organisation || parent.kind == Department), InvalidArgument);
    var above :- Chain(db.scopes, op.parent);
    :- Need(op.scope !in above, InvalidArgument);
    var chain :- Chain(db.scopes, op.scope);
    :- Need(!NameTaken(db.scopes, op.parent, scope.name, {op.scope}), Conflict);
    Ok(db.(policies := Retained(db.policies, org, chain, op.scope),
           scopes := db.scopes[op.scope := scope.(parent := Some(op.parent))]))
  }

  // ---------------------------------------------------------------- removal

  predicate HasChild(scopes: Scopes, sid: Id) {
    exists s :: s in scopes && scopes[s].parent == Some(sid)
  }

  predicate HasData(db: Database, sid: Id) {
    || (exists k :: k in db.records && k.0 == sid)
    || (exists k :: k in db.versions && k.0 == sid)
    || (exists i :: i in db.proposals && db.proposals[i].scope == sid)
    || (exists i :: i in db.messages && db.messages[i].scope == sid)
    || (exists i :: i in db.jobs && db.jobs[i].scope == sid)
  }

  /** The payload rows of one scope deleted. */
  function Purged(db: Database, org: Id, sid: Id): Database {
    db.(records := map k | k in db.records && !(k.0 == sid && db.records[k].org == org) :: db.records[k],
        versions := map k | k in db.versions && !(k.0 == sid && db.versions[k].org == org) :: db.versions[k],
        proposals := map i | i in db.proposals && !(db.proposals[i].scope == sid && db.proposals[i].org == org) :: db.proposals[i],
        messages := map i | i in db.messages && !(db.messages[i].scope == sid && db.messages[i].org == org) :: db.messages[i],
        jobs := map i | i in db.jobs && !(db.jobs[i].scope == sid && db.jobs[i].org == org) :: db.jobs[i])
  }

  /** The scope itself deleted, with its grants, owner, policies and memory locks. */
  function Dropped(db: Database, sid: Id): Database {
    db.(grants := map k | k in db.grants && k.1 != sid :: db.grants[k],
        owners := db.owners - {sid},
        policies := map k | k in db.policies && k.0 != sid :: db.policies[k],
        locks := (set l | l in db.locks && l.0 != sid),
        scopes := db.scopes - {sid})
  }

  ghost function Deleted(cfg: Config, db: Database, a: Id, op: ScopeOp): (r: Result<Database>)
    requires a in db.principals && op.DeleteScope?
    ensures r.Ok? ==> r.value == db.(scopes := r.value.scopes, owners := r.value.owners, policies := r.value.policies,
                                     grants := r.value.grants, locks := r.value.locks, records := r.value.records,
                                     versions := r.value.versions, proposals := r.value.proposals,
                                     messages := r.value.messages, jobs := r.value.jobs, usage := r.value.usage)
  {
    var org := db.principals[a].org;
    var scope :- GetScope(db, org, op.scope);
    :- RequireRole(db, a, op.scope, Admin);
    :- Need(Manageable(scope.kind), Denied);
    var may :- Permitted(db, a, op.scope, Delete);
    :- Need(may, Denied);
    :- Need(!HasChild(db.scopes, op.scope), Conflict);
    :- Need(!HasData(db, op.scope) || op.contents, Conflict);
    Ok(Dropped(if op.contents then Meter.Recounted(cfg, Purged(db, org, op.scope), org) else db, op.scope))
  }

  // ---------------------------------------------------------------- merging two departments

  /** Every key that any memory table of a scope mentions. */
  function MemoryKeys(db: Database, sid: Id): set<string> {
    (set k | k in db.records && k.0 == sid :: k.1) +
    (set k | k in db.versions && k.0 == sid :: k.1) +
    (set i | i in db.proposals && db.proposals[i].scope == sid :: db.proposals[i].key) +
    (set l | l in db.locks && l.0 == sid :: l.1)
  }

  function Home(source: Id, target: Id, sid: Id): Id {
    if sid == source then target else sid
  }

  function Adopted(scopes: Scopes, source: Id, target: Id): Scopes {
    map s | s in scopes ::
      if scopes[s].parent == Some(source) then scopes[s].(parent := Some(target)) else scopes[s]
  }

  /** All payload rows and locks of the source now belong to the target. */
  function Rehomed(db: Database, source: Id, target: Id): Database {
    db.(locks := (set l | l in db.locks :: (Home(source, target, l.0), l.1)),
        records := map k | k in RehomedRecordKeys(db, source, target) ::
                     if k.0 != source && k in db.records then db.records[k] else db.records[(source, k.1)],
        versions := map k | k in RehomedVersionKeys(db, source, target) ::
                      if k.0 != source && k in db.versions then db.versions[k] else db.versions[(source, k.1, k.2)],
        proposals := map i | i in db.proposals ::
                       db.proposals[i].(scope := Home(source, target, db.proposals[i].scope)),
        messages := map i | i in db.messages ::
                      db.messages[i].(scope := Home(source, target, db.messages[i].scope)),
        jobs := map i | i in db.jobs :: db.jobs[i].(scope := Home(source, target, db.jobs[i].scope)))
  }

  function RehomedRecordKeys(db: Database, source: Id, target: Id): set<(Id, string)> {
    set k | k in db.records :: (Home(source, target, k.0), k.1)
  }

  function RehomedVersionKeys(db: Database, source: Id, target: Id): set<(Id, string, nat)> {
    set k | k in db.versions :: (Home(source, target, k.0), k.1, k.2)
  }

  /** A child of the source has the name of some child of the target. */
  predicate ChildNamesCollide(scopes: Scopes, source: Id, target: Id, except: set<Id>) {
    exists c :: c in scopes && scopes[c].parent == Some(source) && NameTaken(scopes, target, scopes[c].name, except)
  }

  /** Two jobs of one creator would meet in the target with one idempotency key. */
  predicate JobsCollide(jobs: map<Id, Job>, source: Id, target: Id) {
    exists i, j :: i in jobs && j in jobs && jobs[i].scope == source && jobs[j].scope == target
      && jobs[i].creator == jobs[j].creator && jobs[i].idempotency == jobs[j].idempotency
  }

  /** The explicit name check ignores the source's own name; the uniqueness constraint does not. */
  ghost function Merged(db: Database, a: Id, op: ScopeOp): (r: Result<Database>)
    requires a in db.principals && op.Merge?
    ensures r.Ok? ==> r.value == db.(scopes := r.value.scopes, owners := r.value.owners, policies := r.value.policies,
                                     grants := r.value.grants, locks := r.value.locks, records := r.value.records,
                                     versions := r.value.versions, proposals := r.value.proposals,
                                     messages := r.value.messages, jobs := r.value.jobs)
  {
    var org := db.principals[a].org;
    :- Need(db.principals[a].admin, Denied);
    var source :- GetScope(db, org, op.source);
    var target :- GetScope(db, org, op.target);
    :- Need(source.kind == Department && target.kind == Department && op.source != op.target, InvalidArgument);
    var above :- Chain(db.scopes, op.target);
    :- Need(op.source !in above, InvalidArgument);
    var may :- Permitted(db, a, op.source, Delete);
    :- Need(may, Denied);
    :- Need(!ChildNamesCollide(db.scopes, op.source, op.target, {op.source}), Conflict);
    :- Need(MemoryKeys(db, op.source) !! MemoryKeys(db, op.target), Conflict);
    var chain :- Chain(db.scopes, op.source);
    :- Need(!ChildNamesCollide(db.scopes, op.source, op.target, {}), Conflict);
    :- Need(!JobsCollide(db.jobs, op.source, op.target), Conflict);
    Ok(Dropped(Rehomed(db.(policies := Retained(db.policies, org, chain, op.target),
                           scopes := Adopted(db.scopes, op.source, op.target)),
                       op.source, op.target),
               op.source))
  }

  // ---------------------------------------------------------------- personal scopes

  predicate PersonalOf(db: Database, sid: Id, p: Id)
    requires p in db.principals
  {
    sid in db.scopes && db.scopes[sid].kind == Personal && db.scopes[sid].org == db.principals[p].org && Owns(db, p, sid)
  }

  predicate HasPersonal(db: Database, p: Id)
    requires p in db.principals
  {
    exists s :: s in db.scopes && PersonalOf(db, s, p)
  }

  /** The database with a new personal scope of `p`. */
  function PersonalAdded(db: Database, p: Id, id: Id): Database
    requires p in db.principals
  {
    ScopeAdded(db, id, Scope(db.principals[p].org, None, "Personal memory", Personal), p)
  }

  function PersonalEnsured(db: Database, p: Id, id: Id): (r: Result<Database>)
    requires p in db.principals
    ensures r.Ok? ==> r.value == db.(used := r.value.used, scopes := r.value.scopes, owners := r.value.owners) && db.used <= r.value.used
  {
    if HasPersonal(db, p) then Ok(db)
    else if id in db.used then Err(Conflict)
    else Ok(PersonalAdded(db, p, id))
  }

  ghost function Performed(cfg: Config, db: Database, a: Id, op: ScopeOp): Result<Database>
    requires a in db.principals
  {
    match op
    case CreateScope(_, _, _, _) => Created(db, a, op)
    case SetPolicy(_, _, _, _) => PolicySet(db, a, op)
    case SetOwner(_, _) => OwnerSet(db, a, op)
    case Move(_, _) => Moved(db, a, op)
    case DeleteScope(_, _) => Deleted(cfg, db, a, op)
    case Merge(_, _) => Merged(db, a, op)
    case OpenPersonal(id) => PersonalEnsured(db, a, id)
  }
}
