/** The invariants of all components together, and what they give over whole runs. */
module RunProofs {
  import opened Base
  import opened Tables
  import opened ScopeTree
  import opened PlacementProofs
  import opened ForestProofs
  import opened LedgerProofs
  import opened LedgerMergeProofs
  import opened DenialProofs
  import opened JobLifeProofs
  import opened AccountingProofs
  import opened LeaseProofs
  import opened IsolationProofs
  import opened PersonalProofs
  import ScopeOps
  import PeopleOps
  import MemoryOps
  import JobOps
  import SlotOps
  import PayloadScan
  import Meter
  import opened Workspace

  /** Everything that holds between two transactions. */
  ghost predicate Sound(cfg: Config, db: Database) {
    && Forest(db.scopes)
    && Placed(db)
    && Audited(cfg, db)
    && AllShaped(db.jobs)
    && SlotsKnown(db)
    && OneEach(db.scopes, db.owners)
    && OwnJobs(db.scopes, db.owners, db.jobs)
    && (cfg.metered ==> Balanced(db))
  }

  lemma EmptySound(cfg: Config)
    ensures Sound(cfg, EMPTY)
  {
  }

  lemma StepSound(cfg: Config, db: Database, call: Call)
    requires Sound(cfg, db)
    ensures Sound(cfg, Step(cfg, db, call))
  {
    hide Forest, HasAccessPlaced, PayloadPlaced, Complete, Exact, Sourced, Applied, Vetted, Scanned, AllShaped, Balanced, Step, SlotsKnown,
         OneEach, OwnJobs;
    StepKeepsForest(cfg, db, call);
    StepPlaced(cfg, db, call);
    StepAudited(cfg, db, call);
    StepJobs(cfg, db, call);
    StepSlotsKnown(cfg, db, call);
    StepOwned(cfg, db, call);
    StepOwnJobs(cfg, db, call);
    if cfg.metered { StepBalanced(cfg, db, call); }
  }

  lemma {:induction false} RunSound(cfg: Config, db: Database, calls: seq<Call>)
    requires Sound(cfg, db)
    ensures Sound(cfg, Run(cfg, db, calls))
    decreases |calls|
  {
    hide Sound, Step;
    if calls != [] {
      StepSound(cfg, db, calls[0]);
      RunSound(cfg, Step(cfg, db, calls[0]), calls[1..]);
    }
  }

  /** Every reachable state is sound. */
  lemma ReachableSound(cfg: Config, db: Database)
    requires Reachable(cfg, db)
    ensures Sound(cfg, db)
  {
    hide Sound, Run;
    var calls :| Run(cfg, EMPTY, calls) == db;
    EmptySound(cfg);
    RunSound(cfg, EMPTY, calls);
  }

  // ---------------------------------------------------------------- reachable states

  /** Every scope hangs where its kind belongs, below a scope of its own organisation; no scope is its own
      ancestor; and the walk returns exactly the ancestors, or raises because there are a hundred. */
  lemma HierarchyIsForest(cfg: Config, db: Database, s: Id, k: nat)
    requires Reachable(cfg, db) && s in db.scopes
    ensures WellPlaced(db.scopes, s)
    ensures k > 0 ==> Up(db.scopes, s, k) != Some(s)
    ensures Chain(db.scopes, s).Err? <==> Up(db.scopes, s, MAX_WALK).Some?
    ensures Chain(db.scopes, s).Ok? ==> forall a :: a in Chain(db.scopes, s).value <==> Ancestor(db.scopes, s, a)
  {
    hide Reachable, Placed, Audited, AllShaped, SlotsKnown, OneEach, OwnJobs, Balanced, Chain, WellPlaced, Rooted;
    ReachableSound(cfg, db);
    ChainIsAncestors(db.scopes, s);
    if k > 0 { Acyclic(db.scopes, s, k); }
  }

  /** The history of a key is exactly the versions 1..n of its canonical row, which equals version n. */
  lemma HistoryExact(cfg: Config, db: Database, sid: Id, key: string, n: nat)
    requires Reachable(cfg, db)
    ensures (sid, key, n) in db.versions <==> (sid, key) in db.records && 1 <= n <= db.records[(sid, key)].version
    ensures (sid, key) in db.records ==>
      var r := db.records[(sid, key)];
      (sid, key, r.version) in db.versions && Copies(db.versions[(sid, key, r.version)], r)
  {
    hide Reachable, Forest, Placed, Sourced, Applied, Vetted, Scanned, AllShaped, SlotsKnown, OneEach, OwnJobs, Balanced;
    ReachableSound(cfg, db);
    if (sid, key, n) in db.versions { assert ExactAt((sid, key, n), db.records); }
    if (sid, key) in db.records { assert CompleteAt((sid, key), db.records[(sid, key)], db.versions); }
  }

  /** Every version is one accepted proposal, reviewed by someone else unless the scope is personal. */
  lemma VersionWasReviewed(cfg: Config, db: Database, k: (Id, string, nat))
    requires Reachable(cfg, db) && k in db.versions
    ensures var v := db.versions[k];
      && v.proposal in db.proposals
      && Becomes(db.proposals[v.proposal], k, v)
      && db.proposals[v.proposal].reviewer.Some?
      && k.0 in db.scopes
      && (db.scopes[k.0].kind != Personal ==> db.proposals[v.proposal].reviewer.value != v.author)
    ensures forall j :: j in db.versions && db.versions[j].proposal == db.versions[k].proposal ==> j == k
  {
    hide Reachable, Forest, Known, HasAccessPlaced, Complete, Exact, Applied, Scanned, AllShaped, SlotsKnown, OneEach, OwnJobs, Balanced;
    ReachableSound(cfg, db);
    assert FromProposal(k, db.versions[k], db.proposals);
    assert Lives(db.scopes, k.0, db.versions[k].org);
    forall j | j in db.versions && db.versions[j].proposal == db.versions[k].proposal ensures j == k { OneToOne(db, j, k); }
  }

  /** Every accepted proposal became exactly the version after the one it expected. */
  lemma AcceptedBecameVersion(cfg: Config, db: Database, i: Id)
    requires Reachable(cfg, db) && i in db.proposals && db.proposals[i].status == Accepted
    ensures var p := db.proposals[i]; var k := (p.scope, p.key, p.expected + 1);
      k in db.versions && db.versions[k].proposal == i
  {
    hide Reachable, Forest, Placed, Complete, Exact, Sourced, Vetted, Scanned, AllShaped, SlotsKnown, OneEach, OwnJobs, Balanced;
    ReachableSound(cfg, db);
    assert AppliedAt(i, db.proposals[i], db.versions);
  }

  /** Every canonical memory was scanned clean in full. */
  lemma CanonicalMemoriesAreClean(cfg: Config, db: Database, k: (Id, string))
    requires Reachable(cfg, db) && k in db.records
    ensures PayloadScan.Clean(cfg.scan, MemoryOps.MemoryPayload(k.1, db.records[k].content, db.records[k].source))
  {
    hide Reachable, Forest, Placed, Audited, AllShaped, SlotsKnown, OneEach, OwnJobs, Balanced, PayloadScan.Clean;
    ReachableSound(cfg, db);
    CanonicalIsClean(cfg, db, k);
  }

  /** With billing enabled, every usage row is the byte recount of its organisation. */
  lemma UsageIsRecount(cfg: Config, db: Database, org: Id)
    requires Reachable(cfg, db) && cfg.metered && org in db.usage
    ensures db.usage[org] == Recount(db, org)
  {
    hide Reachable, Forest, Placed, Audited, AllShaped, Recount;
    ReachableSound(cfg, db);
  }

  /** A charge that commits stays within the cap of the plan in force. */
  lemma ChargesFit(cfg: Config, db: Database, who: Identity, op: Op)
    requires Reachable(cfg, db) && cfg.metered && Dispatched(cfg, db, who, op).Ok?
    ensures GrowthFits(cfg, db, Dispatched(cfg, db, who, op).value)
  {
    hide Reachable, Forest, HasAccessPlaced, PayloadPlaced, Complete, Exact, Sourced, Applied, Vetted, Scanned, AllShaped,
         SlotsKnown, OneEach, OwnJobs, Balanced, Dispatched, GrowthFits;
    ReachableSound(cfg, db);
    DispatchBalanced(cfg, db, who, op);
  }

  // ---------------------------------------------------------------- scopes and rows that are gone stay gone

  /** A scope that was removed never comes back, and nothing is ever moved into it. */
  lemma GoneStays(cfg: Config, db: Database, call: Call, s: Id)
    requires Placed(db) && s in db.used && s !in db.scopes
    ensures var d := Step(cfg, db, call); s in d.used && s !in d.scopes && StepHome(cfg, db, call, s) == s
  {
    hide Dispatched, PeopleOps.OrganisationCreated, HasAccessPlaced, PayloadPlaced;
    match call
    case Dispatch(who, op) => if Dispatched(cfg, db, who, op).Ok? { DispatchGone(cfg, db, who, op, s); }
    case NewOrganisation(t) => if PeopleOps.OrganisationCreated(db, t).Ok? { TenantGone(db, t, s); }
    case Recalculate(_) =>
    case BillingAuthority(_) =>
  }

  lemma TenantGone(db: Database, t: PeopleOps.Tenant, s: Id)
    requires PeopleOps.OrganisationCreated(db, t).Ok? && s in db.used && s !in db.scopes
    ensures var d := PeopleOps.OrganisationCreated(db, t).value; s in d.used && s !in d.scopes
  {
    hide PeopleOps.NameOrTokenTaken, ScopeOps.HasPersonal;
    TenantFrame(db, t);
  }

  lemma PeopleGone(cfg: Config, db: Database, a: Id, op: PeopleOps.PeopleOp, s: Id)
    requires a in db.principals && PeopleOps.Performed(cfg, db, a, op).Ok? && s in db.used && s !in db.scopes
    ensures s !in PeopleOps.Performed(cfg, db, a, op).value.scopes
  {
    hide RequireRole, Meter.Admitted, PeopleOps.ActiveAdmins, PeopleOps.NameOrTokenTaken, ScopeOps.HasPersonal;
  }

  lemma ScopeOpGone(cfg: Config, db: Database, a: Id, op: ScopeOps.ScopeOp, s: Id)
    requires a in db.principals && ScopeOps.Performed(cfg, db, a, op).Ok? && s in db.used && s !in db.scopes
    ensures s !in ScopeOps.Performed(cfg, db, a, op).value.scopes && HomeAfter(op, s) == s
  {
    hide RequireRole, Permitted, Chain, ScopeOps.Retained, ScopeOps.NameTaken, ScopeOps.HasData, ScopeOps.HasChild,
         ScopeOps.ChildNamesCollide, ScopeOps.JobsCollide, ScopeOps.MemoryKeys, ScopeOps.HasPersonal, Meter.Recounted;
  }

  lemma DispatchGone(cfg: Config, db: Database, who: Identity, op: Op, s: Id)
    requires Dispatched(cfg, db, who, op).Ok? && s in db.used && s !in db.scopes
    ensures var d := Dispatched(cfg, db, who, op).value;
      s in d.used && s !in d.scopes && StepHome(cfg, db, Dispatch(who, op), s) == s
  {
    hide ScopeOps.Performed, PeopleOps.Performed, MemoryOps.Performed, JobOps.Performed, SlotOps.Performed, HomeAfter;
    match op
    case OnScopes(o) => ScopeFrame(cfg, db, who.id, o); ScopeOpGone(cfg, db, who.id, o, s);
    case OnPeople(o) => PeopleFrame(cfg, db, who.id, o); PeopleGone(cfg, db, who.id, o, s);
    case OnMemory(o) => MemoryFrame(cfg, db, who.id, o);
    case OnJobs(o) => JobFrame(cfg, db, who.id, o);
    case OnSlots(o) => SlotFrame(cfg, db, who.id, o);
  }

  // ---------------------------------------------------------------- denials over a run

  /** Where the contents of a scope are at the end of a run. */
  ghost function RunHome(cfg: Config, db: Database, calls: seq<Call>, s: Id): Id
    decreases |calls|
  {
    if calls == [] then s
    else RunHome(cfg, Step(cfg, db, calls[0]), calls[1..], StepHome(cfg, db, calls[0], s))
  }

  lemma {:induction false} RunGone(cfg: Config, db: Database, calls: seq<Call>, s: Id)
    requires Sound(cfg, db) && s in db.used && s !in db.scopes
    ensures RunHome(cfg, db, calls, s) == s && s !in Run(cfg, db, calls).scopes
    decreases |calls|
  {
    hide Forest, HasAccessPlaced, PayloadPlaced, Known, Audited, AllShaped, SlotsKnown, OneEach, OwnJobs, Balanced, Step, StepHome;
    if calls != [] {
      StepSound(cfg, db, calls[0]);
      GoneStays(cfg, db, calls[0], s);
      RunGone(cfg, Step(cfg, db, calls[0]), calls[1..], s);
    }
  }

  lemma {:induction false} RunKeepsDenials(cfg: Config, db: Database, calls: seq<Call>, s: Id, p: Id, right: Right)
    requires Sound(cfg, db) && s in db.scopes && Denies(db, s, p, right)
    requires forall c :: c in calls ==> !SetsPolicy(c)
    ensures var d := Run(cfg, db, calls); var h := RunHome(cfg, db, calls, s); h in d.scopes ==> Denies(d, h, p, right)
    decreases |calls|
  {
    hide Forest, HasAccessPlaced, PayloadPlaced, Known, Audited, AllShaped, SlotsKnown, OneEach, OwnJobs, Balanced, Step, StepHome, Denies, SetsPolicy;
    if calls != [] {
      var d, h := Step(cfg, db, calls[0]), StepHome(cfg, db, calls[0], s);
      StepSound(cfg, db, calls[0]);
      assert calls[0] in calls;
      StepKeepsDenials(cfg, db, calls[0], s, p, right);
      if h in d.scopes { RunKeepsDenials(cfg, d, calls[1..], h, p, right); }
      else {
        HomeKnown(cfg, db, calls[0], s);
        RunGone(cfg, d, calls[1..], h);
      }
    }
  }

  lemma StepUsed(cfg: Config, db: Database, call: Call)
    ensures db.used <= Step(cfg, db, call).used
  {
    hide Dispatched, PeopleOps.OrganisationCreated;
    match call
    case Dispatch(who, op) => if Dispatched(cfg, db, who, op).Ok? { DispatchUsed(cfg, db, who, op); }
    case NewOrganisation(t) => if PeopleOps.OrganisationCreated(db, t).Ok? { TenantFrame(db, t); }
    case Recalculate(_) =>
    case BillingAuthority(_) =>
  }

  lemma DispatchUsed(cfg: Config, db: Database, who: Identity, op: Op)
    requires Dispatched(cfg, db, who, op).Ok?
    ensures db.used <= Dispatched(cfg, db, who, op).value.used
  {
    hide ScopeOps.Performed, PeopleOps.Performed, MemoryOps.Performed, JobOps.Performed, SlotOps.Performed;
    match op
    case OnScopes(o) => ScopeFrame(cfg, db, who.id, o);
    case OnPeople(o) => PeopleFrame(cfg, db, who.id, o);
    case OnMemory(o) => MemoryFrame(cfg, db, who.id, o);
    case OnJobs(o) => JobFrame(cfg, db, who.id, o);
    case OnSlots(o) => SlotFrame(cfg, db, who.id, o);
  }

  lemma MergeTargetExists(db: Database, a: Id, op: ScopeOps.ScopeOp)
    requires a in db.principals && op.Merge? && ScopeOps.Merged(db, a, op).Ok?
    ensures op.target in db.scopes
  {
    hide Permitted, Chain, ScopeOps.ChildNamesCollide, ScopeOps.MemoryKeys, ScopeOps.JobsCollide;
  }

  /** The place contents move to is a scope that existed. */
  lemma HomeKnown(cfg: Config, db: Database, call: Call, s: Id)
    requires Placed(db) && s in db.scopes
    ensures StepHome(cfg, db, call, s) in Step(cfg, db, call).used
  {
    hide ScopeOps.Created, ScopeOps.PolicySet, ScopeOps.OwnerSet, ScopeOps.Moved, ScopeOps.Deleted, ScopeOps.Merged,
         ScopeOps.PersonalEnsured, PeopleOps.OrganisationCreated, HasAccessPlaced, PayloadPlaced, Step;
    StepUsed(cfg, db, call);
    if call.Dispatch? && call.op.OnScopes? && call.op.scopes.Merge? && Dispatched(cfg, db, call.who, call.op).Ok? {
      MergeTargetExists(db, call.who.id, call.op.scopes);
    }
  }

  /** Over every run without a policy change, contents that a principal may not export (or delete)
      stay out of its reach wherever creates, moves, merges, ownership changes and deletions leave them. */
  lemma DenialsSurvive(cfg: Config, db: Database, calls: seq<Call>, s: Id, p: Id, right: Right)
    requires Reachable(cfg, db) && s in db.scopes && Denies(db, s, p, right)
    requires forall c :: c in calls ==> !SetsPolicy(c)
    ensures var d := Run(cfg, db, calls); var h := RunHome(cfg, db, calls, s);
      h in d.scopes && p in d.principals ==> Permitted(d, p, h, right) != Ok(true)
  {
    hide Reachable, Forest, Placed, Audited, AllShaped, SlotsKnown, OneEach, OwnJobs, Balanced, Run, RunHome, Denies, Permitted, SetsPolicy;
    ReachableSound(cfg, db);
    RunSound(cfg, db, calls);
    RunKeepsDenials(cfg, db, calls, s, p, right);
    var d, h := Run(cfg, db, calls), RunHome(cfg, db, calls, s);
    if h in d.scopes && p in d.principals { PermittedExactly(d, h, p, right); }
  }

  // ---------------------------------------------------------------- payload rows follow their scope

  /** A payload row that is named by its identifier. */
  datatype Row = OfProposal(id: Id) | OfMessage(id: Id) | OfJob(id: Id)

  predicate Exists(db: Database, row: Row) {
    match row case OfProposal(i) => i in db.proposals case OfMessage(i) => i in db.messages case OfJob(i) => i in db.jobs
  }

  function ScopeOf(db: Database, row: Row): Id
    requires Exists(db, row)
  {
    match row
    case OfProposal(i) => db.proposals[i].scope
    case OfMessage(i) => db.messages[i].scope
    case OfJob(i) => db.jobs[i].scope
  }

  /** A row that stays is where the contents of its scope are; a row that is gone stays gone. */
  ghost predicate RowFollows(before: Database, after: Database, row: Row, home: Id) {
    && (Exists(before, row) && Exists(after, row) ==> ScopeOf(after, row) == home)
    && (!Exists(before, row) && row.id in before.used ==> !Exists(after, row))
  }

  lemma MergedFollows(db: Database, a: Id, op: ScopeOps.ScopeOp, row: Row)
    requires a in db.principals && op.Merge? && ScopeOps.Merged(db, a, op).Ok?
    ensures var d := ScopeOps.Merged(db, a, op).value;
      && (Exists(d, row) <==> Exists(db, row))
      && (Exists(db, row) ==> ScopeOf(d, row) == ScopeOps.Home(op.source, op.target, ScopeOf(db, row)))
  {
    hide Permitted, Chain, ScopeOps.Retained, ScopeOps.ChildNamesCollide, ScopeOps.JobsCollide, ScopeOps.MemoryKeys,
         ScopeOps.RehomedRecordKeys, ScopeOps.RehomedVersionKeys, ScopeOps.Adopted, ScopeOps.Home;
  }

  lemma DeletedFollows(cfg: Config, db: Database, a: Id, op: ScopeOps.ScopeOp, row: Row)
    requires a in db.principals && op.DeleteScope? && ScopeOps.Deleted(cfg, db, a, op).Ok?
    ensures var d := ScopeOps.Deleted(cfg, db, a, op).value;
      Exists(d, row) ==> Exists(db, row) && ScopeOf(d, row) == ScopeOf(db, row)
  {
    hide RequireRole, Permitted, ScopeOps.HasChild, ScopeOps.HasData, Meter.Recounted;
  }

  lemma ScopeOpFollows(cfg: Config, db: Database, a: Id, op: ScopeOps.ScopeOp, row: Row)
    requires a in db.principals && ScopeOps.Performed(cfg, db, a, op).Ok?
    ensures var d := ScopeOps.Performed(cfg, db, a, op).value;
      Exists(d, row) ==> Exists(db, row) && ScopeOf(d, row) == HomeAfter(op, ScopeOf(db, row))
  {
    hide ScopeOps.Created, ScopeOps.PolicySet, ScopeOps.OwnerSet, ScopeOps.Moved, ScopeOps.Deleted, ScopeOps.Merged,
         ScopeOps.PersonalEnsured, ScopeOps.Home;
    if op.Merge? { MergedFollows(db, a, op, row); }
    else if op.DeleteScope? { DeletedFollows(cfg, db, a, op, row); }
  }

  lemma ProposedFollows(cfg: Config, db: Database, a: Id, op: MemoryOps.MemoryOp, row: Row)
    requires Known(db) && a in db.principals && op.Propose? && MemoryOps.Proposed(cfg, db, a, op).Ok?
    ensures RowFollows(db, MemoryOps.Proposed(cfg, db, a, op).value, row, if Exists(db, row) then ScopeOf(db, row) else "")
  {
    hide RequireRole, MemoryOps.MemoryFindings, Meter.Charged, ProposalBytes;
  }

  lemma SentFollows(cfg: Config, db: Database, a: Id, op: MemoryOps.MemoryOp, row: Row)
    requires Known(db) && a in db.principals && op.Send? && MemoryOps.Sent(cfg, db, a, op).Ok?
    ensures RowFollows(db, MemoryOps.Sent(cfg, db, a, op).value, row, if Exists(db, row) then ScopeOf(db, row) else "")
  {
    hide RequireRole, RoleFor, Meter.Charged, MessageBytes;
  }

  /** A review changes no proposal's scope, and a deletion only removes. */
  lemma ReviewedFollows(cfg: Config, db: Database, a: Id, op: MemoryOps.MemoryOp, row: Row)
    requires a in db.principals && op.Review? && MemoryOps.Reviewed(cfg, db, a, op).Ok?
    ensures RowFollows(db, MemoryOps.Reviewed(cfg, db, a, op).value, row, if Exists(db, row) then ScopeOf(db, row) else "")
  {
    hide RequireRole, Meter.Charged, MemoryOps.CurrentVersion, MemoryOps.Settled, MemoryOps.Promoted;
    var pid := op.proposal;
    var p := db.proposals[pid];
    var held := db.(locks := db.locks + {(p.scope, p.key)});
    SettledFollows(db, pid, Rejected, a);
    SettledFollows(held, pid, Conflicted, a);
    if op.accept && !p.quarantined && p.expected == MemoryOps.CurrentVersion(db, p.scope, p.key) {
      var charged := Meter.Charged(cfg, held, p.org, Bytes(p.content) + Bytes(p.source)).value;
      SettledFollows(charged, pid, Accepted, a);
      PromotedFollows(MemoryOps.Settled(charged, pid, Accepted, a), pid);
    }
  }

  lemma SettledFollows(db: Database, pid: Id, status: ProposalStatus, reviewer: Id)
    requires pid in db.proposals
    ensures var after := MemoryOps.Settled(db, pid, status, reviewer).proposals;
      after.Keys == db.proposals.Keys && forall i :: i in after ==> after[i].scope == db.proposals[i].scope
  {
  }

  lemma PromotedFollows(db: Database, pid: Id)
    requires pid in db.proposals
    ensures MemoryOps.Promoted(db, pid).proposals == db.proposals
  {
  }

  lemma KeyDeletedFollows(cfg: Config, db: Database, a: Id, op: MemoryOps.MemoryOp, row: Row)
    requires a in db.principals && op.DeleteKey? && MemoryOps.KeyDeleted(cfg, db, a, op).Ok?
    ensures RowFollows(db, MemoryOps.KeyDeleted(cfg, db, a, op).value, row, if Exists(db, row) then ScopeOf(db, row) else "")
  {
    hide RequireRole, Permitted, MemoryOps.KeyExists, Meter.Recounted;
  }

  lemma MemoryOpFollows(cfg: Config, db: Database, a: Id, op: MemoryOps.MemoryOp, row: Row)
    requires Known(db) && a in db.principals && MemoryOps.Performed(cfg, db, a, op).Ok?
    ensures var d := MemoryOps.Performed(cfg, db, a, op).value;
      RowFollows(db, d, row, if Exists(db, row) then ScopeOf(db, row) else "")
  {
    hide RowFollows, MemoryOps.Proposed, MemoryOps.Reviewed, MemoryOps.KeyDeleted, MemoryOps.Sent;
    match op
    case Propose(_, _, _, _, _, _, _) => ProposedFollows(cfg, db, a, op, row);
    case Review(_, _) => ReviewedFollows(cfg, db, a, op, row);
    case DeleteKey(_, _) => KeyDeletedFollows(cfg, db, a, op, row);
    case Send(_, _, _, _) => SentFollows(cfg, db, a, op, row);
  }

  lemma JobOpFollows(cfg: Config, db: Database, a: Id, op: JobOps.JobOp, row: Row)
    requires AllShaped(db.jobs) && Known(db) && a in db.principals && JobOps.Performed(cfg, db, a, op).Ok?
    ensures var d := JobOps.Performed(cfg, db, a, op).value;
      RowFollows(db, d, row, if Exists(db, row) then ScopeOf(db, row) else "")
  {
    hide RequireRole, RoleFor, JobOps.JobFindings, Meter.Charged, JobBytes, FindingsBytes, Bytes, AllShaped, JobOps.Expired,
         JobOps.Replayed, JobOps.SamePayload, PayloadScan.Findings;
  }

  lemma DispatchFollows(cfg: Config, db: Database, who: Identity, op: Op, row: Row)
    requires AllShaped(db.jobs) && Known(db) && Dispatched(cfg, db, who, op).Ok?
    ensures var d := Dispatched(cfg, db, who, op).value;
      RowFollows(db, d, row, if Exists(db, row) then StepHome(cfg, db, Dispatch(who, op), ScopeOf(db, row)) else "")
  {
    hide ScopeOps.Performed, PeopleOps.Performed, MemoryOps.Performed, JobOps.Performed, SlotOps.Performed, HomeAfter, AllShaped;
    match op
    case OnScopes(o) => ScopeOpFollows(cfg, db, who.id, o, row);
    case OnPeople(o) => PeopleFrame(cfg, db, who.id, o);
    case OnMemory(o) => MemoryOpFollows(cfg, db, who.id, o, row);
    case OnJobs(o) => JobOpFollows(cfg, db, who.id, o, row);
    case OnSlots(o) => SlotFrame(cfg, db, who.id, o);
  }

  lemma StepFollows(cfg: Config, db: Database, call: Call, row: Row)
    requires AllShaped(db.jobs) && Known(db)
    ensures RowFollows(db, Step(cfg, db, call), row, if Exists(db, row) then StepHome(cfg, db, call, ScopeOf(db, row)) else "")
  {
    hide Dispatched, PeopleOps.OrganisationCreated, AllShaped;
    match call
    case Dispatch(who, op) => if Dispatched(cfg, db, who, op).Ok? { DispatchFollows(cfg, db, who, op, row); }
    case NewOrganisation(t) => if PeopleOps.OrganisationCreated(db, t).Ok? { TenantFrame(db, t); }
    case Recalculate(_) =>
    case BillingAuthority(_) =>
  }

  lemma {:induction false} RunFollows(cfg: Config, db: Database, calls: seq<Call>, row: Row)
    requires Sound(cfg, db)
    ensures var d := Run(cfg, db, calls);
      RowFollows(db, d, row, if Exists(db, row) then RunHome(cfg, db, calls, ScopeOf(db, row)) else "")
    decreases |calls|
  {
    hide Forest, HasAccessPlaced, PayloadPlaced, Audited, AllShaped, SlotsKnown, OneEach, OwnJobs, Balanced, Step, StepHome;
    if calls != [] {
      var d := Step(cfg, db, calls[0]);
      StepSound(cfg, db, calls[0]);
      StepUsed(cfg, db, calls[0]);
      StepFollows(cfg, db, calls[0], row);
      RunFollows(cfg, d, calls[1..], row);
    }
  }

  /** The same, row by row: a proposal, message or job that a principal could not export (or delete)
      before the run is still denied to it in the scope it is in after the run. */
  lemma RowDenialsSurvive(cfg: Config, db: Database, calls: seq<Call>, row: Row, p: Id, right: Right)
    requires Reachable(cfg, db) && Exists(db, row) && ScopeOf(db, row) in db.scopes && Denies(db, ScopeOf(db, row), p, right)
    requires forall c :: c in calls ==> !SetsPolicy(c)
    ensures var d := Run(cfg, db, calls);
      Exists(d, row) && ScopeOf(d, row) in d.scopes && p in d.principals ==> Permitted(d, p, ScopeOf(d, row), right) != Ok(true)
  {
    hide Reachable, Sound, Run, RunHome, Denies, Permitted, SetsPolicy;
    ReachableSound(cfg, db);
    RunFollows(cfg, db, calls, row);
    DenialsSurvive(cfg, db, calls, ScopeOf(db, row), p, right);
  }

  // ---------------------------------------------------------------- jobs over a run

  /** Some committed review by another principal accepted the job. */
  ghost predicate AcceptedBySomeone(calls: seq<Call>, j: Id, assignee: Id) {
    exists c :: c in calls && Accepts(c, j, assignee)
  }

  lemma {:induction false} CompletionAccepted(cfg: Config, db: Database, calls: seq<Call>, j: Id)
    requires Sound(cfg, db) && j in Run(cfg, db, calls).jobs && Run(cfg, db, calls).jobs[j].status == Completed
    requires j in db.jobs ==> db.jobs[j].status != Completed
    ensures AcceptedBySomeone(calls, j, Run(cfg, db, calls).jobs[j].assignee)
    decreases |calls|
  {
    hide Forest, HasAccessPlaced, PayloadPlaced, Audited, AllShaped, SlotsKnown, OneEach, OwnJobs, Balanced, Step, Accepts, Progress;
    if calls != [] {
      var d := Step(cfg, db, calls[0]);
      StepSound(cfg, db, calls[0]);
      StepJobs(cfg, db, calls[0]);
      if j in d.jobs && d.jobs[j].status == Completed {
        assert Accepts(calls[0], j, d.jobs[j].assignee);
        SameAssignee(cfg, d, calls[1..], j);
        assert calls[0] in calls;
      } else {
        CompletionAccepted(cfg, d, calls[1..], j);
        var c :| c in calls[1..] && Accepts(c, j, Run(cfg, db, calls).jobs[j].assignee);
        assert c in calls;
      }
    }
  }

  /** A job keeps its assignee, and a removed job never comes back. */
  lemma {:induction false} SameAssignee(cfg: Config, db: Database, calls: seq<Call>, j: Id)
    requires Sound(cfg, db) && j in db.used
    ensures j in Run(cfg, db, calls).jobs ==> j in db.jobs && Run(cfg, db, calls).jobs[j].assignee == db.jobs[j].assignee
    decreases |calls|
  {
    hide Forest, HasAccessPlaced, PayloadPlaced, Audited, AllShaped, SlotsKnown, OneEach, OwnJobs, Balanced, Step, Progress, StepHome;
    if calls != [] {
      StepSound(cfg, db, calls[0]);
      StepJobs(cfg, db, calls[0]);
      StepUsed(cfg, db, calls[0]);
      StepFollows(cfg, db, calls[0], OfJob(j));
      SameAssignee(cfg, Step(cfg, db, calls[0]), calls[1..], j);
    }
  }

  /** A completed job has a result without findings, and someone other than its assignee accepted it. */
  lemma CompletedJobs(cfg: Config, calls: seq<Call>, j: Id)
    requires j in Run(cfg, EMPTY, calls).jobs && Run(cfg, EMPTY, calls).jobs[j].status == Completed
    ensures var job := Run(cfg, EMPTY, calls).jobs[j];
      job.result.Some? && job.findings == {} && AcceptedBySomeone(calls, j, job.assignee)
  {
    hide Forest, Placed, Audited, Balanced, Run, AcceptedBySomeone;
    EmptySound(cfg);
    RunSound(cfg, EMPTY, calls);
    CompletionAccepted(cfg, EMPTY, calls, j);
    assert Shaped(Run(cfg, EMPTY, calls).jobs[j]);
  }

  // ---------------------------------------------------------------- leases over a run

  /** The tokens issued by a run. */
  ghost function RunLogged(cfg: Config, db: Database, h: History, calls: seq<Call>): History
    decreases |calls|
  {
    if calls == [] then h
    else RunLogged(cfg, Step(cfg, db, calls[0]), Logged(cfg, db, h, calls[0]), calls[1..])
  }

  /** Every claim of the run generates a token that was never issued before. */
  ghost predicate RunFresh(cfg: Config, db: Database, h: History, calls: seq<Call>)
    decreases |calls|
  {
    calls != [] ==>
      FreshToken(h, calls[0]) && RunFresh(cfg, Step(cfg, db, calls[0]), Logged(cfg, db, h, calls[0]), calls[1..])
  }

  lemma {:induction false} RunFencing(cfg: Config, db: Database, h: History, calls: seq<Call>, j: Id, n: nat)
    requires Sound(cfg, db) && Fencing(db, h) && RunFresh(cfg, db, h, calls)
    ensures Fencing(Run(cfg, db, calls), RunLogged(cfg, db, h, calls))
    ensures n + 1 < |Issued(h, j)| ==>
      var later := Issued(RunLogged(cfg, db, h, calls), j); n + 1 < |later| && later[n] == Issued(h, j)[n]
    decreases |calls|
  {
    hide Forest, HasAccessPlaced, PayloadPlaced, Audited, AllShaped, SlotsKnown, OneEach, OwnJobs, Balanced, Step, Known, Logged, FreshToken, Issued;
    if calls != [] {
      StepSound(cfg, db, calls[0]);
      StepFencing(cfg, db, h, calls[0]);
      if n + 1 < |Issued(h, j)| { SupersededStays(cfg, db, h, calls[0], j, n); }
      RunFencing(cfg, Step(cfg, db, calls[0]), Logged(cfg, db, h, calls[0]), calls[1..], j, n);
    }
  }

  /** Once a later claim superseded a token, no run and no clock makes the fence accept it again. */
  lemma SupersededNeverPasses(cfg: Config, db: Database, h: History, calls: seq<Call>, j: Id, n: nat, a: Id, now: int)
    requires Sound(cfg, db) && Fencing(db, h) && RunFresh(cfg, db, h, calls)
    requires n + 1 < |Issued(h, j)|
    requires a in Run(cfg, db, calls).principals
    ensures !JobOps.Fenced(Run(cfg, db, calls), a, j, Issued(h, j)[n], now).Ok?
  {
    hide Sound, Run, RunLogged, RunFresh, JobOps.Fenced, Distinct;
    RunFencing(cfg, db, h, calls, j, n);
    var d, later := Run(cfg, db, calls), RunLogged(cfg, db, h, calls);
    if JobOps.Fenced(d, a, j, Issued(h, j)[n], now).Ok? {
      OnlyLatestPasses(d, later, a, j, Issued(h, j)[n], now);
      NoRepeat(later, j, n, |Issued(later, j)| - 1);
    }
  }

  lemma NoRepeat(h: History, j: Id, m: nat, n: nat)
    requires Distinct(h) && m < n < |Issued(h, j)|
    ensures Issued(h, j)[m] != Issued(h, j)[n]
  {
  }

  /** From the empty database, the tokens issued for a job are as many as its attempts, at most five. */
  lemma TokensOverRuns(cfg: Config, calls: seq<Call>, j: Id)
    requires RunFresh(cfg, EMPTY, map[], calls) && j in Run(cfg, EMPTY, calls).jobs
    ensures var issued := Issued(RunLogged(cfg, EMPTY, map[], calls), j);
      |issued| == Run(cfg, EMPTY, calls).jobs[j].attempts <= JobOps.MAX_ATTEMPTS
  {
    hide Forest, Placed, Audited, Balanced, Run, RunLogged, RunFresh;
    EmptySound(cfg);
    RunSound(cfg, EMPTY, calls);
    RunFencing(cfg, EMPTY, map[], calls, j, 0);
    TokensAreAttempts(Run(cfg, EMPTY, calls), RunLogged(cfg, EMPTY, map[], calls), j);
  }

  // ---------------------------------------------------------------- tenants and personal scopes over a run

  /** In every reachable state a dispatch changes no row of another organisation. */
  lemma TenantsApart(cfg: Config, db: Database, who: Identity, op: Op, o: Id)
    requires Reachable(cfg, db) && o != who.org
    ensures SameTenant(db, Step(cfg, db, Dispatch(who, op)), o)
  {
    hide Reachable, Forest, Placed, Audited, AllShaped, OneEach, OwnJobs, Balanced, SameTenant, Dispatched;
    ReachableSound(cfg, db);
    if Dispatched(cfg, db, who, op).Ok? { DispatchElsewhere(cfg, db, who, op, o); } else { Kept(db, db, o); }
  }

  /** A run in which the owner of a personal scope dispatches nothing leaves the scope, its owner
      and its contents as they were. */
  lemma {:induction false} PersonalUntouched(cfg: Config, db: Database, calls: seq<Call>, s: Id)
    requires Sound(cfg, db) && IsPersonal(db.scopes, s) && s in db.owners
    requires forall c :: c in calls && c.Dispatch? ==> c.who.id != db.owners[s].principal
    ensures var d := Run(cfg, db, calls);
      IsPersonal(d.scopes, s) && s in d.owners && d.owners[s] == db.owners[s] && SameContents(db, d, s)
    decreases |calls|
  {
    hide Forest, HasAccessPlaced, PayloadPlaced, Audited, AllShaped, SlotsKnown, OneEach, OwnJobs, Balanced, Step, SameContents, IsPersonal;
    if calls == [] { Unread(db, db, s); }
    else {
      var d := Step(cfg, db, calls[0]);
      assert calls[0] in calls;
      StepSound(cfg, db, calls[0]);
      StepOwned(cfg, db, calls[0]);
      OnlyOwnerChanges(cfg, db, calls[0], s);
      PersonalUntouched(cfg, d, calls[1..], s);
      Same(db, d, Run(cfg, d, calls[1..]), s);
    }
  }

  /** In every reachable state each principal has at most one personal scope, and every one has an owner. */
  lemma OnePersonalEach(cfg: Config, db: Database, s: Id, t: Id)
    requires Reachable(cfg, db) && IsPersonal(db.scopes, s) && IsPersonal(db.scopes, t)
    ensures s in db.owners && t in db.owners
    ensures db.owners[s].principal == db.owners[t].principal ==> s == t
  {
    hide Reachable, Forest, Placed, Audited, AllShaped, SlotsKnown, Balanced;
    ReachableSound(cfg, db);
  }

  /** In every reachable state the jobs of a personal scope are its owner's, for itself. */
  lemma PersonalJobs(cfg: Config, db: Database, j: Id)
    requires Reachable(cfg, db) && j in db.jobs && IsPersonal(db.scopes, db.jobs[j].scope)
    ensures db.jobs[j].scope in db.owners
    ensures db.jobs[j].creator == db.jobs[j].assignee == db.owners[db.jobs[j].scope].principal
  {
    hide Reachable, Forest, Placed, Audited, AllShaped, SlotsKnown, Balanced;
    ReachableSound(cfg, db);
  }
}
