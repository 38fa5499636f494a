/** Canonical memories and their versions over whole runs: none is lost or denied less than before, wherever
    merges and moves leave it, until an operation deletes it. */
module CustodyProofs {
  import opened Base
  import opened Tables
  import opened ScopeTree
  import opened LedgerProofs
  import opened LedgerMergeProofs
  import opened DenialProofs
  import opened RunProofs
  import ScopeOps
  import PeopleOps
  import MemoryOps
  import JobOps
  import SlotOps
  import Meter
  import opened Workspace

  /** The operation deletes this memory key, or its scope with its contents. */
  predicate Deletes(op: Op, s: Id, key: string) {
    || (op.OnScopes? && op.scopes == ScopeOps.DeleteScope(s, true))
    || (op.OnMemory? && op.memory == MemoryOps.DeleteKey(s, key))
  }

  predicate Reviews(op: Op) { op.OnMemory? && op.memory.Review? }

  /** What is stored under a key of one scope before is stored under it in another scope after: every version
      with its value, and the canonical record, with its value when `same`. */
  ghost predicate KeyFollows(before: Database, after: Database, s: Id, key: string, home: Id, same: bool) {
    && ((s, key) in before.records ==>
          (home, key) in after.records && (same ==> after.records[(home, key)] == before.records[(s, key)]))
    && (forall n :: (s, key, n) in before.versions ==>
          (home, key, n) in after.versions && after.versions[(home, key, n)] == before.versions[(s, key, n)])
  }

  lemma SameTables(before: Database, after: Database, s: Id, key: string, same: bool)
    requires after.records == before.records && after.versions == before.versions
    ensures KeyFollows(before, after, s, key, s, same)
  {
  }

  lemma Unchanged(db: Database, s: Id, key: string)
    ensures KeyFollows(db, db, s, key, s, true)
  {
  }

  // ---------------------------------------------------------------- operations on scopes

  lemma MergedKey(db: Database, a: Id, op: ScopeOps.ScopeOp, s: Id, key: string)
    requires a in db.principals && op.Merge? && ScopeOps.Merged(db, a, op).Ok?
    ensures KeyFollows(db, ScopeOps.Merged(db, a, op).value, s, key, ScopeOps.Home(op.source, op.target, s), true)
  {
    hide Permitted, Chain, ScopeOps.Retained, ScopeOps.ChildNamesCollide, ScopeOps.JobsCollide, ScopeOps.MemoryKeys,
         ScopeOps.Adopted, ScopeOps.Rehomed, ScopeOps.Home;
    var org := db.principals[a].org;
    var adopted := db.(policies := ScopeOps.Retained(db.policies, org, Chain(db.scopes, op.source).value, op.target),
                       scopes := ScopeOps.Adopted(db.scopes, op.source, op.target));
    SameKeys(db, adopted, op.source);
    SameKeys(db, adopted, op.target);
    if (s, key) in db.records { RecordForward(adopted, op.source, op.target, (s, key)); }
    forall n | (s, key, n) in db.versions { VersionForward(adopted, op.source, op.target, (s, key, n)); }
  }

  lemma PurgedKey(db: Database, org: Id, sid: Id, s: Id, key: string)
    requires s != sid
    ensures KeyFollows(db, ScopeOps.Purged(db, org, sid), s, key, s, true)
  {
  }

  /** A scope without data mentions no key. */
  lemma NoData(db: Database, after: Database, s: Id, key: string)
    requires !ScopeOps.HasData(db, s)
    ensures KeyFollows(db, after, s, key, s, true)
  {
  }

  lemma DeletedKey(cfg: Config, db: Database, a: Id, op: ScopeOps.ScopeOp, s: Id, key: string)
    requires a in db.principals && op.DeleteScope? && ScopeOps.Deleted(cfg, db, a, op).Ok? && op != ScopeOps.DeleteScope(s, true)
    ensures KeyFollows(db, ScopeOps.Deleted(cfg, db, a, op).value, s, key, s, true)
  {
    hide RequireRole, Permitted, ScopeOps.HasChild, ScopeOps.HasData, ScopeOps.Purged, Meter.Recounted;
    var org := db.principals[a].org;
    if s != op.scope {
      PurgedKey(db, org, op.scope, s, key);
    } else {
      NoData(db, ScopeOps.Deleted(cfg, db, a, op).value, s, key);
    }
  }

  lemma ScopeOpKey(cfg: Config, db: Database, a: Id, op: ScopeOps.ScopeOp, s: Id, key: string)
    requires a in db.principals && ScopeOps.Performed(cfg, db, a, op).Ok? && op != ScopeOps.DeleteScope(s, true)
    ensures KeyFollows(db, ScopeOps.Performed(cfg, db, a, op).value, s, key, HomeAfter(op, s), true)
  {
    hide ScopeOps.Created, ScopeOps.PolicySet, ScopeOps.OwnerSet, ScopeOps.Moved, ScopeOps.Deleted, ScopeOps.Merged,
         ScopeOps.PersonalEnsured, ScopeOps.Home, KeyFollows;
    if op.Merge? { MergedKey(db, a, op, s, key); }
    else if op.DeleteScope? { DeletedKey(cfg, db, a, op, s, key); }
    else { SameTables(db, ScopeOps.Performed(cfg, db, a, op).value, s, key, true); }
  }

  // ---------------------------------------------------------------- operations on memory

  lemma OpenProposal(db: Database, a: Id, pid: Id)
    requires a in db.principals && MemoryOps.MayReview(db, a, pid).Pass?
    ensures pid in db.proposals
  {
    hide RequireRole;
  }

  lemma SettledKey(db: Database, pid: Id, status: ProposalStatus, reviewer: Id, s: Id, key: string)
    requires pid in db.proposals
    ensures KeyFollows(db, MemoryOps.Settled(db, pid, status, reviewer), s, key, s, false)
  {
  }

  /** The next version is free, so a promotion overwrites none. */
  lemma PromotedKey(db: Database, pid: Id, s: Id, key: string)
    requires Exact(db.records, db.versions) && pid in db.proposals
    ensures KeyFollows(db, MemoryOps.Promoted(db, pid), s, key, s, false)
  {
    var p := db.proposals[pid];
    NextVersionIsFree(db, p.scope, p.key);
  }

  lemma AcceptedKey(cfg: Config, db: Database, a: Id, pid: Id, s: Id, key: string)
    requires Exact(db.records, db.versions) && pid in db.proposals && MemoryOps.AcceptedInto(cfg, db, a, pid).Ok?
    ensures KeyFollows(db, MemoryOps.AcceptedInto(cfg, db, a, pid).value, s, key, s, false)
  {
    hide Exact, Meter.Charged, MemoryOps.Promoted;
    var p := db.proposals[pid];
    var charged := Meter.Charged(cfg, db, p.org, Bytes(p.content) + Bytes(p.source)).value;
    PromotedKey(MemoryOps.Settled(charged, pid, Accepted, a), pid, s, key);
  }

  lemma ReviewedKey(cfg: Config, db: Database, a: Id, op: MemoryOps.MemoryOp, s: Id, key: string)
    requires Exact(db.records, db.versions) && a in db.principals && op.Review? && MemoryOps.Reviewed(cfg, db, a, op).Ok?
    ensures KeyFollows(db, MemoryOps.Reviewed(cfg, db, a, op).value, s, key, s, false)
  {
    hide Exact, MemoryOps.MayReview, MemoryOps.CurrentVersion, MemoryOps.Settled, MemoryOps.AcceptedInto;
    OpenProposal(db, a, op.proposal);
    var pid := op.proposal;
    var p := db.proposals[pid];
    var held := db.(locks := db.locks + {(p.scope, p.key)});
    SettledKey(db, pid, Rejected, a, s, key);
    SettledKey(held, pid, Conflicted, a, s, key);
    if MemoryOps.AcceptedInto(cfg, held, a, pid).Ok? { AcceptedKey(cfg, held, a, pid, s, key); }
  }

  lemma KeyDeletedKey(cfg: Config, db: Database, a: Id, op: MemoryOps.MemoryOp, s: Id, key: string)
    requires a in db.principals && op.DeleteKey? && MemoryOps.KeyDeleted(cfg, db, a, op).Ok? && op != MemoryOps.DeleteKey(s, key)
    ensures KeyFollows(db, MemoryOps.KeyDeleted(cfg, db, a, op).value, s, key, s, true)
  {
    hide RequireRole, Permitted, MemoryOps.KeyExists, Meter.Recounted;
  }

  lemma MemoryOpKey(cfg: Config, db: Database, a: Id, op: MemoryOps.MemoryOp, s: Id, key: string)
    requires Exact(db.records, db.versions)
    requires a in db.principals && MemoryOps.Performed(cfg, db, a, op).Ok? && op != MemoryOps.DeleteKey(s, key)
    ensures KeyFollows(db, MemoryOps.Performed(cfg, db, a, op).value, s, key, s, !op.Review?)
  {
    hide Exact, MemoryOps.Proposed, MemoryOps.Reviewed, MemoryOps.KeyDeleted, MemoryOps.Sent, KeyFollows;
    if op.Review? { ReviewedKey(cfg, db, a, op, s, key); }
    else if op.DeleteKey? { KeyDeletedKey(cfg, db, a, op, s, key); }
    else { SameTables(db, MemoryOps.Performed(cfg, db, a, op).value, s, key, true); }
  }

  // ---------------------------------------------------------------- every step

  /** The call commits a deletion of this memory key. */
  ghost predicate StepDeletes(cfg: Config, db: Database, call: Call, s: Id, key: string) {
    call.Dispatch? && Deletes(call.op, s, key) && Dispatched(cfg, db, call.who, call.op).Ok?
  }

  predicate StepReviews(call: Call) { call.Dispatch? && Reviews(call.op) }

  lemma DispatchKey(cfg: Config, db: Database, who: Identity, op: Op, s: Id, key: string)
    requires Exact(db.records, db.versions) && Dispatched(cfg, db, who, op).Ok? && !Deletes(op, s, key)
    ensures KeyFollows(db, Dispatched(cfg, db, who, op).value, s, key, StepHome(cfg, db, Dispatch(who, op), s), !Reviews(op))
  {
    hide Exact, KeyFollows, ScopeOps.Performed, PeopleOps.Performed, MemoryOps.Performed, JobOps.Performed, SlotOps.Performed, HomeAfter;
    var d := Dispatched(cfg, db, who, op).value;
    match op
    case OnScopes(o) => ScopeOpKey(cfg, db, who.id, o, s, key);
    case OnPeople(o) => PeopleFrame(cfg, db, who.id, o); SameTables(db, d, s, key, true);
    case OnMemory(o) => MemoryOpKey(cfg, db, who.id, o, s, key);
    case OnJobs(o) => JobFrame(cfg, db, who.id, o); SameTables(db, d, s, key, true);
    case OnSlots(o) => SlotFrame(cfg, db, who.id, o); SameTables(db, d, s, key, true);
  }

  /** No step loses a version or a canonical memory but a committed deletion, and none but a review changes a
      canonical memory; a merge takes them along to the target. */
  lemma StepKey(cfg: Config, db: Database, call: Call, s: Id, key: string)
    requires Exact(db.records, db.versions) && !StepDeletes(cfg, db, call, s, key)
    ensures KeyFollows(db, Step(cfg, db, call), s, key, StepHome(cfg, db, call, s), !StepReviews(call))
  {
    hide Exact, KeyFollows, Dispatched, PeopleOps.OrganisationCreated, Deletes, HomeAfter;
    var d := Step(cfg, db, call);
    Unchanged(db, s, key);
    match call
    case Dispatch(who, op) =>
      if Dispatched(cfg, db, who, op).Ok? { DispatchKey(cfg, db, who, op, s, key); } else { SameTables(db, db, s, key, !Reviews(op)); }
    case NewOrganisation(t) =>
      if PeopleOps.OrganisationCreated(db, t).Ok? { TenantFrame(db, t); }
      SameTables(db, d, s, key, true);
    case Recalculate(_) => SameTables(db, d, s, key, true);
    case BillingAuthority(_) => SameTables(db, d, s, key, true);
  }

  // ---------------------------------------------------------------- every run

  /** Some call of the run commits a deletion of the key in the scope where its contents then are. */
  ghost predicate RunDeletes(cfg: Config, db: Database, calls: seq<Call>, s: Id, key: string)
    decreases |calls|
  {
    calls != [] &&
      (StepDeletes(cfg, db, calls[0], s, key)
       || RunDeletes(cfg, Step(cfg, db, calls[0]), calls[1..], StepHome(cfg, db, calls[0], s), key))
  }

  lemma SoundLedger(cfg: Config, db: Database)
    requires Sound(cfg, db)
    ensures Complete(db.records, db.versions) && Exact(db.records, db.versions)
    ensures (forall k :: k in db.records ==> k.0 in db.scopes) && (forall k :: k in db.versions ==> k.0 in db.scopes)
  {
  }

  lemma FollowsTwice(a: Database, b: Database, c: Database, s: Id, key: string, h: Id, g: Id, same: bool, still: bool)
    requires KeyFollows(a, b, s, key, h, same) && KeyFollows(b, c, h, key, g, still)
    ensures KeyFollows(a, c, s, key, g, same && still)
  {
  }

  lemma {:induction false} RunKey(cfg: Config, db: Database, calls: seq<Call>, s: Id, key: string, same: bool)
    requires Sound(cfg, db) && !RunDeletes(cfg, db, calls, s, key)
    requires same ==> forall c :: c in calls ==> !StepReviews(c)
    ensures KeyFollows(db, Run(cfg, db, calls), s, key, RunHome(cfg, db, calls, s), same)
    decreases |calls|
  {
    hide Sound, Exact, Step, StepHome, StepDeletes, KeyFollows, StepReviews;
    if calls == [] { SameTables(db, db, s, key, same); }
    else {
      var d, h := Step(cfg, db, calls[0]), StepHome(cfg, db, calls[0], s);
      SoundLedger(cfg, db);
      StepSound(cfg, db, calls[0]);
      StepKey(cfg, db, calls[0], s, key);
      assert calls[0] in calls;
      RunKey(cfg, d, calls[1..], h, key, same);
      FollowsTwice(db, d, Run(cfg, d, calls[1..]), s, key, h, RunHome(cfg, d, calls[1..], h), !StepReviews(calls[0]), same);
      Forgets(db, Run(cfg, db, calls), s, key, RunHome(cfg, db, calls, s), !StepReviews(calls[0]) && same, same);
    }
  }

  lemma Forgets(before: Database, after: Database, s: Id, key: string, home: Id, same: bool, still: bool)
    requires KeyFollows(before, after, s, key, home, same) && (still ==> same)
    ensures KeyFollows(before, after, s, key, home, still)
  {
  }

  /** Over every run that does not delete its key, a version stays as it was, in the scope where the run took
      the contents of its scope. */
  lemma VersionsStay(cfg: Config, db: Database, calls: seq<Call>, s: Id, key: string, n: nat)
    requires Reachable(cfg, db) && (s, key, n) in db.versions && !RunDeletes(cfg, db, calls, s, key)
    ensures var d := Run(cfg, db, calls); var h := RunHome(cfg, db, calls, s);
      h in d.scopes && (h, key, n) in d.versions && d.versions[(h, key, n)] == db.versions[(s, key, n)]
  {
    hide Reachable, Sound, Complete, Exact, Run, RunHome, RunDeletes;
    ReachableSound(cfg, db);
    RunSound(cfg, db, calls);
    SoundLedger(cfg, Run(cfg, db, calls));
    RunKey(cfg, db, calls, s, key, false);
  }

  /** Over every run that does not delete it, a canonical memory stays in the scope where the run took the
      contents of its scope. Without reviews it keeps its value; with them its version never falls. */
  lemma RecordsStay(cfg: Config, db: Database, calls: seq<Call>, s: Id, key: string)
    requires Reachable(cfg, db) && (s, key) in db.records && !RunDeletes(cfg, db, calls, s, key)
    ensures var d := Run(cfg, db, calls); var h := RunHome(cfg, db, calls, s);
      && h in d.scopes && (h, key) in d.records
      && d.records[(h, key)].version >= db.records[(s, key)].version
      && ((forall c :: c in calls ==> !StepReviews(c)) ==> d.records[(h, key)] == db.records[(s, key)])
  {
    hide Reachable, Sound, Complete, Exact, Run, RunHome, RunDeletes, StepReviews;
    var d, h := Run(cfg, db, calls), RunHome(cfg, db, calls, s);
    ReachableSound(cfg, db);
    RunSound(cfg, db, calls);
    SoundLedger(cfg, Run(cfg, db, calls));
    RunKey(cfg, db, calls, s, key, false);
    if forall c :: c in calls ==> !StepReviews(c) { RunKey(cfg, db, calls, s, key, true); }
    SoundLedger(cfg, db);
    LatestVersion(db, d, s, key, h);
  }

  lemma LatestVersion(before: Database, after: Database, s: Id, key: string, home: Id)
    requires KeyFollows(before, after, s, key, home, false) && (s, key) in before.records
    requires Complete(before.records, before.versions) && Exact(after.records, after.versions)
    ensures (home, key) in after.records && after.records[(home, key)].version >= before.records[(s, key)].version
  {
    var n := before.records[(s, key)].version;
    assert CompleteAt((s, key), before.records[(s, key)], before.versions);
    assert ExactAt((home, key, n), after.records);
  }

  /** A canonical memory and its versions that a principal could not export (or delete) before a run without
      policy changes are, where the run took them, still denied to it. */
  lemma MemoryDenialsSurvive(cfg: Config, db: Database, calls: seq<Call>, s: Id, key: string, p: Id, right: Right)
    requires Reachable(cfg, db) && !RunDeletes(cfg, db, calls, s, key)
    requires (s, key) in db.records || exists n :: (s, key, n) in db.versions
    requires Denies(db, s, p, right) && forall c :: c in calls ==> !SetsPolicy(c)
    ensures var d := Run(cfg, db, calls); var h := RunHome(cfg, db, calls, s);
      && h in d.scopes
      && KeyFollows(db, d, s, key, h, false)
      && (p in d.principals ==> Permitted(d, p, h, right) != Ok(true))
  {
    hide Reachable, Sound, Complete, Exact, Run, RunHome, RunDeletes, Denies,
         Permitted, SetsPolicy;
    ReachableSound(cfg, db);
    RunSound(cfg, db, calls);
    SoundLedger(cfg, Run(cfg, db, calls));
    RunKey(cfg, db, calls, s, key, false);
    SoundLedger(cfg, db);
    DenialsSurvive(cfg, db, calls, s, p, right);
  }
}
