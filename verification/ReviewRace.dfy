/** Reviews racing on one (scope, key): any number of replicas, in any interleaving of reads, locks,
    conditional updates, writes, commits and aborts. Neither the organisation lock nor a lock on the
    first read of the proposal is assumed: the mutex row and the conditional update carry the proof. */
module ReviewRace {
  import opened Base

  type Id = string
  type Replica = nat

  datatype Status = Pending | Accepted | Rejected | Conflicted

  datatype Proposal = Proposal(content: string, expected: nat, quarantined: bool, status: Status)

  datatype Canonical = Canonical(content: string, version: nat)

  datatype Entry = Entry(proposal: Id, content: string)

  /** The mutex row: absent, inserted by a transaction that has not committed, or committed and
      possibly locked. */
  datatype Mutex = Absent | Inserted(owner: Replica) | Unlocked | LockedBy(owner: Replica)

  /** How far the transaction of a replica has come. */
  datatype Phase =
    | Seen(pid: Id, accept: bool)                   // the proposal was read, and was pending
    | Inserting(pid: Id)                            // no mutex row was visible
    | Retrying(pid: Id)                             // the insertion met a row that is there
    | Holding(pid: Id)                              // the mutex is held
    | Compared(pid: Id, current: nat)               // the canonical version was read
    | Settled(pid: Id, status: Status, current: nat)  // the conditional update changed one row
    | Written(pid: Id, current: nat)                // canonical row and version were written
    | Ended

  /** Committed rows, row locks, and transactions. What an open transaction wrote is in its phase. */
  datatype State = State(
    proposals: map<Id, Proposal>,
    canonical: Option<Canonical>,
    history: map<nat, Entry>,
    mutex: Mutex,
    rowLocks: map<Id, Replica>,
    phases: map<Replica, Phase>)

  datatype Event =
    | Begin(t: Replica, pid: Id, accept: bool)
    | LookForMutex(t: Replica)
    | InsertMutex(t: Replica)
    | LockAgain(t: Replica)
    | Compare(t: Replica)
    | Settle(t: Replica)
    | Write(t: Replica)
    | Commit(t: Replica)
    | Abort(t: Replica)

  function Version(s: State): nat { if s.canonical.Some? then s.canonical.value.version else 0 }

  function At(s: State, t: Replica, phase: Phase): State { s.(phases := s.phases[t := phase]) }

  // ---------------------------------------------------------------- ending a transaction

  function Released(m: Mutex, t: Replica, commit: bool): Mutex {
    match m
    case Inserted(owner) => if owner != t then m else if commit then Unlocked else Absent
    case LockedBy(owner) => if owner != t then m else Unlocked
    case _ => m
  }

  function Ending(s: State, t: Replica, commit: bool): State {
    s.(mutex := Released(s.mutex, t, commit),
       rowLocks := map p | p in s.rowLocks && s.rowLocks[p] != t :: s.rowLocks[p],
       phases := s.phases[t := Ended])
  }

  // ---------------------------------------------------------------- one step

  /** The first read takes no lock; a proposal that is already settled is refused. */
  function Begun(s: State, t: Replica, pid: Id, accept: bool): State
    requires pid in s.proposals
  {
    var p := s.proposals[pid];
    At(s, t, if p.status != Pending || (accept && p.quarantined) then Ended else Seen(pid, accept))
  }

  /** `SELECT .. FOR UPDATE`: waits for a lock holder, and does not see an uncommitted row. */
  function Looked(s: State, t: Replica, pid: Id): Option<State> {
    match s.mutex
    case Unlocked => Some(At(s, t, Holding(pid)).(mutex := LockedBy(t)))
    case LockedBy(_) => None
    case _ => Some(At(s, t, Inserting(pid)))
  }

  /** The insertion waits for another uncommitted insertion, and fails on a committed row. */
  function Tried(s: State, t: Replica, pid: Id): Option<State> {
    match s.mutex
    case Absent => Some(At(s, t, Holding(pid)).(mutex := Inserted(t)))
    case Inserted(_) => None
    case _ => Some(At(s, t, Retrying(pid)))
  }

  function LockedAgain(s: State, t: Replica, pid: Id): Option<State> {
    match s.mutex
    case Unlocked => Some(At(s, t, Holding(pid)).(mutex := LockedBy(t)))
    case LockedBy(_) => None
    case _ => Some(Ending(s, t, false))
  }

  /** The status that the transaction is about to write, if it is ready to write one. */
  function Verdict(s: State, phase: Phase): Option<Status> {
    match phase
    case Seen(_, accept) => if accept then None else Some(Rejected)
    case Compared(pid, current) =>
      if pid !in s.proposals then None
      else Some(if s.proposals[pid].expected == current then Accepted else Conflicted)
    case _ => None
  }

  /** The conditional update waits for a writer of the row, and then tests the committed status. */
  function Transitioned(s: State, t: Replica, pid: Id, status: Status, current: nat): Option<State>
    requires pid in s.proposals
  {
    if pid in s.rowLocks then None
    else if s.proposals[pid].status != Pending then Some(Ending(s, t, false))
    else Some(At(s, t, Phase.Settled(pid, status, current)).(rowLocks := s.rowLocks[pid := t]))
  }

  function WithStatus(s: State, pid: Id, status: Status): State
    requires pid in s.proposals
  {
    s.(proposals := s.proposals[pid := s.proposals[pid].(status := status)])
  }

  /** A commit publishes what the transaction wrote; the uniqueness of versions may still abort it. */
  function Committed(s: State, t: Replica): Option<State>
    requires t in s.phases
  {
    match s.phases[t]
    case Settled(pid, status, _) =>
      if pid in s.proposals && status != Accepted then Some(Ending(WithStatus(s, pid, status), t, true)) else None
    case Written(pid, current) =>
      if pid !in s.proposals then None
      else if current + 1 in s.history then Some(Ending(s, t, false))
      else
        var content := s.proposals[pid].content;
        var published := WithStatus(s, pid, Accepted).(canonical := Some(Canonical(content, current + 1)),
                                                      history := s.history[current + 1 := Entry(pid, content)]);
        Some(Ending(published, t, true))
    case _ => None
  }

  /** The state after an event, or nothing when the event is not enabled or has to wait. */
  function Next(s: State, e: Event): Option<State> {
    if e.Begin? then
      if e.t in s.phases || e.pid !in s.proposals then None else Some(Begun(s, e.t, e.pid, e.accept))
    else if e.t !in s.phases || s.phases[e.t].Ended? then None
    else
      var phase := s.phases[e.t];
      match e
      case LookForMutex(t) => if phase.Seen? && phase.accept then Looked(s, t, phase.pid) else None
      case InsertMutex(t) => if phase.Inserting? then Tried(s, t, phase.pid) else None
      case LockAgain(t) => if phase.Retrying? then LockedAgain(s, t, phase.pid) else None
      case Compare(t) => if phase.Holding? then Some(At(s, t, Compared(phase.pid, Version(s)))) else None
      case Settle(t) =>
        if Verdict(s, phase).None? || phase.pid !in s.proposals then None
        else Transitioned(s, t, phase.pid, Verdict(s, phase).value, if phase.Compared? then phase.current else 0)
      case Write(t) =>
        if phase.Settled? && phase.status == Accepted then Some(At(s, t, Written(phase.pid, phase.current))) else None
      case Commit(t) => Committed(s, t)
      case Abort(t) => Some(Ending(s, t, false))
  }

  /** Events that are not enabled do nothing. */
  function After(s: State, e: Event): State {
    var next := Next(s, e);
    if next.Some? then next.value else s
  }

  function Run(s: State, events: seq<Event>): State
    decreases |events|
  {
    if events == [] then s else Run(After(s, events[0]), events[1..])
  }

  // ---------------------------------------------------------------- the invariant

  predicate Holds(m: Mutex, t: Replica) {
    (m.Inserted? || m.LockedBy?) && m.owner == t
  }

  /** The phases in which a transaction owns the mutex. */
  predicate Inside(phase: Phase) {
    phase.Holding? || phase.Compared? || phase.Written? || (phase.Settled? && phase.status != Rejected)
  }

  /** What a transaction relies on. */
  ghost predicate Safe(s: State, t: Replica)
    requires t in s.phases
  {
    var phase := s.phases[t];
    && (Inside(phase) ==> Holds(s.mutex, t))
    && (!phase.Ended? ==> phase.pid in s.proposals)
    && (phase.Compared? ==> phase.current == Version(s))
    && (phase.Settled? ==>
          && phase.pid in s.rowLocks && s.rowLocks[phase.pid] == t && s.proposals[phase.pid].status == Pending
          && phase.status != Pending
          && (phase.status == Accepted ==> phase.current == Version(s) == s.proposals[phase.pid].expected))
    && (phase.Written? ==>
          && phase.pid in s.rowLocks && s.rowLocks[phase.pid] == t && s.proposals[phase.pid].status == Pending
          && phase.current == Version(s) == s.proposals[phase.pid].expected)
  }

  /** A row lock belongs to the transaction whose update is still uncommitted. */
  ghost predicate LockOwned(s: State, pid: Id)
    requires pid in s.rowLocks
  {
    var t := s.rowLocks[pid];
    t in s.phases && (s.phases[t].Settled? || s.phases[t].Written?) && s.phases[t].pid == pid
  }

  type Proposals = map<Id, Proposal>
  type History = map<nat, Entry>

  /** Version `v` came from an accepted proposal that expected the version just before it. */
  ghost predicate Backed(proposals: Proposals, history: History, v: nat) {
    && v in history && history[v].proposal in proposals
    && var p := proposals[history[v].proposal];
       p.status == Accepted && p.expected + 1 == v && p.content == history[v].content
  }

  ghost predicate BecameVersion(proposals: Proposals, history: History, p: Id)
    requires p in proposals
  {
    var v := proposals[p].expected + 1;
    v in history && history[v].proposal == p
  }

  ghost predicate Ledger(proposals: Proposals, canonical: Option<Canonical>, history: History) {
    var version := if canonical.Some? then canonical.value.version else 0;
    && (forall v :: v in history <==> 1 <= v <= version)
    && (forall v :: v in history ==> Backed(proposals, history, v))
    && (canonical.Some? ==> 1 <= version && canonical.value.content == history[version].content)
    && (forall p :: p in proposals && proposals[p].status == Accepted ==> BecameVersion(proposals, history, p))
  }

  ghost predicate Inv(s: State) {
    && (forall t :: t in s.phases ==> Safe(s, t))
    && (forall p :: p in s.rowLocks ==> LockOwned(s, p))
    && Ledger(s.proposals, s.canonical, s.history)
  }

  // ---------------------------------------------------------------- steps that publish nothing

  lemma PhaseStep(s: State, t: Replica, phase: Phase, m: Mutex)
    requires Inv(s) && m in {s.mutex, LockedBy(t), Inserted(t)}
    requires t in s.phases ==> !Inside(s.phases[t]) || (m == s.mutex && s.phases[t].Holding?)
    requires t in s.phases ==> !s.phases[t].Settled? && !s.phases[t].Written?
    requires m != s.mutex ==> s.mutex == Unlocked || s.mutex == Absent
    requires !phase.Settled? && !phase.Written?
    requires !phase.Ended? ==> phase.pid in s.proposals
    requires Inside(phase) ==> Holds(m, t)
    requires phase.Compared? ==> phase.current == Version(s)
    ensures Inv(At(s, t, phase).(mutex := m))
  {
    hide Ledger;
    var next := At(s, t, phase).(mutex := m);
    forall u | u in next.phases ensures Safe(next, u) { if u != t { assert Safe(s, u); } }
    forall p | p in next.rowLocks ensures LockOwned(next, p) { assert LockOwned(s, p); }
  }

  lemma EndingStep(s: State, t: Replica, commit: bool)
    requires Inv(s)
    ensures Inv(Ending(s, t, commit))
  {
    hide Ledger;
    var next := Ending(s, t, commit);
    forall u | u in next.phases ensures Safe(next, u) { if u != t { assert Safe(s, u); } }
    forall p | p in next.rowLocks ensures LockOwned(next, p) { assert LockOwned(s, p); }
  }

  lemma SettleStep(s: State, t: Replica, pid: Id, status: Status, current: nat)
    requires Inv(s) && t in s.phases && !s.phases[t].Ended? && pid == s.phases[t].pid
    requires Verdict(s, s.phases[t]) == Some(status) && pid in s.proposals
    requires s.phases[t].Compared? ==> current == s.phases[t].current
    requires pid !in s.rowLocks && s.proposals[pid].status == Pending
    ensures Inv(At(s, t, Phase.Settled(pid, status, current)).(rowLocks := s.rowLocks[pid := t]))
  {
    hide Ledger;
    var next := At(s, t, Phase.Settled(pid, status, current)).(rowLocks := s.rowLocks[pid := t]);
    assert Safe(s, t);
    forall u | u in next.phases ensures Safe(next, u) { if u != t { assert Safe(s, u); } }
    forall p | p in next.rowLocks ensures LockOwned(next, p) { if p != pid { assert LockOwned(s, p); } }
  }

  lemma WriteStep(s: State, t: Replica)
    requires Inv(s) && t in s.phases && s.phases[t].Settled? && s.phases[t].status == Accepted
    ensures Inv(At(s, t, Written(s.phases[t].pid, s.phases[t].current)))
  {
    hide Ledger;
    var next := At(s, t, Written(s.phases[t].pid, s.phases[t].current));
    assert Safe(s, t);
    forall u | u in next.phases ensures Safe(next, u) { if u != t { assert Safe(s, u); } }
    forall p | p in next.rowLocks ensures LockOwned(next, p) { assert LockOwned(s, p); }
  }

  // ---------------------------------------------------------------- commits

  lemma RefusalLedger(proposals: Proposals, canonical: Option<Canonical>, history: History, pid: Id, status: Status)
    requires Ledger(proposals, canonical, history) && pid in proposals && proposals[pid].status == Pending && status != Accepted
    ensures Ledger(proposals[pid := proposals[pid].(status := status)], canonical, history)
  {
    var after := proposals[pid := proposals[pid].(status := status)];
    forall v | v in history ensures Backed(after, history, v) { assert Backed(proposals, history, v); }
    forall p | p in after && after[p].status == Accepted ensures BecameVersion(after, history, p) {
      assert BecameVersion(proposals, history, p);
    }
  }

  /** No other open transaction wrote the proposal, because this one holds its row lock. */
  lemma RefusalStep(s: State, t: Replica)
    requires Inv(s) && t in s.phases && s.phases[t].Settled? && s.phases[t].status != Accepted
    ensures Inv(Ending(WithStatus(s, s.phases[t].pid, s.phases[t].status), t, true))
  {
    hide Ledger;
    var pid := s.phases[t].pid;
    var next := Ending(WithStatus(s, pid, s.phases[t].status), t, true);
    assert Safe(s, t);
    RefusalLedger(s.proposals, s.canonical, s.history, pid, s.phases[t].status);
    forall u | u in next.phases ensures Safe(next, u) { if u != t { assert Safe(s, u); } }
    forall p | p in next.rowLocks ensures LockOwned(next, p) { assert LockOwned(s, p); }
  }

  /** The next version is always free: the uniqueness constraint never has to fire. */
  lemma NextIsFree(s: State, t: Replica)
    requires Inv(s) && t in s.phases && s.phases[t].Written?
    ensures s.phases[t].current + 1 !in s.history
  {
    assert Safe(s, t);
  }

  function Published(s: State, t: Replica): State
    requires t in s.phases && s.phases[t].Written? && s.phases[t].pid in s.proposals
  {
    var pid, v := s.phases[t].pid, s.phases[t].current + 1;
    var content := s.proposals[pid].content;
    Ending(WithStatus(s, pid, Accepted).(canonical := Some(Canonical(content, v)), history := s.history[v := Entry(pid, content)]), t, true)
  }

  lemma PublishedLedger(proposals: Proposals, canonical: Option<Canonical>, history: History, pid: Id, version: nat)
    requires Ledger(proposals, canonical, history) && version == (if canonical.Some? then canonical.value.version else 0)
    requires pid in proposals && proposals[pid].status == Pending && proposals[pid].expected == version
    ensures Ledger(proposals[pid := proposals[pid].(status := Accepted)],
                   Some(Canonical(proposals[pid].content, version + 1)),
                   history[version + 1 := Entry(pid, proposals[pid].content)])
  {
    var after := proposals[pid := proposals[pid].(status := Accepted)];
    var longer := history[version + 1 := Entry(pid, proposals[pid].content)];
    forall v | v in longer ensures Backed(after, longer, v) { if v != version + 1 { assert Backed(proposals, history, v); } }
    forall p | p in after && after[p].status == Accepted ensures BecameVersion(after, longer, p) {
      if p != pid { assert BecameVersion(proposals, history, p); }
    }
  }

  /** Nobody else is inside the mutex, so nobody else relied on the version that was replaced. */
  lemma PublishedStep(s: State, t: Replica)
    requires Inv(s) && t in s.phases && s.phases[t].Written?
    ensures s.phases[t].pid in s.proposals && Inv(Published(s, t))
  {
    hide Ledger;
    assert Safe(s, t);
    PublishedLedger(s.proposals, s.canonical, s.history, s.phases[t].pid, s.phases[t].current);
    var next := Published(s, t);
    forall u | u in next.phases ensures Safe(next, u) { if u != t { assert Safe(s, u); } }
    forall p | p in next.rowLocks ensures LockOwned(next, p) { assert LockOwned(s, p); }
  }

  // ---------------------------------------------------------------- every step

  lemma SettleEvent(s: State, t: Replica)
    requires Inv(s)
    ensures Inv(After(s, Settle(t)))
  {
    hide Safe, LockOwned, Ledger;
    if Next(s, Settle(t)).Some? {
      var phase := s.phases[t];
      if s.proposals[phase.pid].status != Pending { EndingStep(s, t, false); }
      else { SettleStep(s, t, phase.pid, Verdict(s, phase).value, if phase.Compared? then phase.current else 0); }
    }
  }

  lemma CommitEvent(s: State, t: Replica)
    requires Inv(s)
    ensures Inv(After(s, Commit(t)))
  {
    hide Safe, LockOwned, Ledger;
    if Next(s, Commit(t)).Some? {
      var phase := s.phases[t];
      if phase.Written? { NextIsFree(s, t); PublishedStep(s, t); } else { RefusalStep(s, t); }
    }
  }

  lemma Keep(s: State, e: Event)
    requires Inv(s)
    ensures Inv(After(s, e))
  {
    hide Safe, LockOwned, Ledger, Ending;
    if Next(s, e).Some? {
      var t := e.t;
      match e
      case Begin(_, pid, accept) => PhaseStep(s, t, Begun(s, t, pid, accept).phases[t], s.mutex);
      case LookForMutex(_) =>
        KnownProposal(s, t);
        if s.mutex.Unlocked? { PhaseStep(s, t, Holding(s.phases[t].pid), LockedBy(t)); }
        else { PhaseStep(s, t, Inserting(s.phases[t].pid), s.mutex); }
      case InsertMutex(_) =>
        KnownProposal(s, t);
        if s.mutex.Absent? { PhaseStep(s, t, Holding(s.phases[t].pid), Inserted(t)); }
        else { PhaseStep(s, t, Retrying(s.phases[t].pid), s.mutex); }
      case LockAgain(_) =>
        KnownProposal(s, t);
        if s.mutex.Unlocked? { PhaseStep(s, t, Holding(s.phases[t].pid), LockedBy(t)); } else { EndingStep(s, t, false); }
      case Compare(_) =>
        KnownProposal(s, t);
        PhaseStep(s, t, Compared(s.phases[t].pid, Version(s)), s.mutex);
      case Settle(_) => SettleEvent(s, t);
      case Write(_) => WriteStep(s, t);
      case Commit(_) => CommitEvent(s, t);
      case Abort(_) => EndingStep(s, t, false);
    }
  }

  lemma KnownProposal(s: State, t: Replica)
    requires Inv(s) && t in s.phases && !s.phases[t].Ended?
    ensures s.phases[t].pid in s.proposals && (Inside(s.phases[t]) ==> Holds(s.mutex, t))
  {
    assert Safe(s, t);
  }

  // ---------------------------------------------------------------- what a step changes

  function AcceptedIn(s: State): set<Id> {
    set p | p in s.proposals && s.proposals[p].status == Accepted
  }

  /** A step settles at most pending proposals, keeps every version there is, and accepts exactly
      as many proposals as it adds versions. */
  ghost predicate Grows(s: State, next: State) {
    && next.proposals.Keys == s.proposals.Keys
    && (forall p :: p in s.proposals && s.proposals[p].status != Pending ==> next.proposals[p] == s.proposals[p])
    && (forall p :: p in s.proposals ==> next.proposals[p] == s.proposals[p].(status := next.proposals[p].status))
    && (forall v :: v in s.history ==> v in next.history && next.history[v] == s.history[v])
    && |AcceptedIn(next)| - |AcceptedIn(s)| == Version(next) - Version(s) >= 0
  }

  lemma Quiet(s: State, next: State)
    requires next.proposals == s.proposals && next.history == s.history && next.canonical == s.canonical
    ensures Grows(s, next)
  {
  }

  lemma RefusalGrows(s: State, t: Replica)
    requires Inv(s) && t in s.phases && s.phases[t].Settled? && s.phases[t].status != Accepted
    ensures Grows(s, Ending(WithStatus(s, s.phases[t].pid, s.phases[t].status), t, true))
  {
    assert Safe(s, t);
    assert AcceptedIn(Ending(WithStatus(s, s.phases[t].pid, s.phases[t].status), t, true)) == AcceptedIn(s);
  }

  lemma OneMore(s: State, t: Replica)
    requires t in s.phases && s.phases[t].Written? && s.phases[t].pid in s.proposals
    requires s.proposals[s.phases[t].pid].status == Pending
    ensures |AcceptedIn(Published(s, t))| == |AcceptedIn(s)| + 1
  {
    assert AcceptedIn(Published(s, t)) == AcceptedIn(s) + {s.phases[t].pid};
  }

  lemma PublishedGrows(s: State, t: Replica)
    requires Inv(s) && t in s.phases && s.phases[t].Written?
    ensures s.phases[t].pid in s.proposals && Grows(s, Published(s, t))
  {
    hide Ledger, LockOwned, AcceptedIn;
    assert Safe(s, t);
    NextIsFree(s, t);
    OneMore(s, t);
  }

  lemma StepGrows(s: State, e: Event)
    requires Inv(s)
    ensures Grows(s, After(s, e))
  {
    hide Inv, Grows;
    if e.Commit? && Next(s, e).Some? {
      if s.phases[e.t].Written? { NextIsFree(s, e.t); PublishedGrows(s, e.t); } else { RefusalGrows(s, e.t); }
    } else {
      Quiet(s, After(s, e));
    }
  }

  lemma GrowsOn(a: State, b: State, c: State)
    requires Grows(a, b) && Grows(b, c)
    ensures Grows(a, c)
  {
    forall p | p in a.proposals && a.proposals[p].status != Pending ensures c.proposals[p] == a.proposals[p] {
      assert b.proposals[p] == a.proposals[p];
    }
    forall p | p in a.proposals ensures c.proposals[p] == a.proposals[p].(status := c.proposals[p].status) {
      assert b.proposals[p] == a.proposals[p].(status := b.proposals[p].status);
    }
    hide AcceptedIn;
  }

  // ---------------------------------------------------------------- every run

  /** No transaction is open, and the ledger is in order; the key may have no version yet. */
  ghost predicate Start(s: State) {
    s.phases == map[] && s.rowLocks == map[] && (s.mutex == Absent || s.mutex == Unlocked) && Ledger(s.proposals, s.canonical, s.history)
  }

  lemma {:induction false} RunKeeps(s: State, events: seq<Event>)
    requires Inv(s)
    ensures Inv(Run(s, events)) && Grows(s, Run(s, events))
    decreases |events|
  {
    hide Inv, Grows, After;
    if events == [] { Quiet(s, s); }
    else {
      Keep(s, events[0]);
      StepGrows(s, events[0]);
      RunKeeps(After(s, events[0]), events[1..]);
      GrowsOn(s, After(s, events[0]), Run(s, events));
    }
  }

  /** Whatever the interleaving: a proposal leaves "pending" at most once, no version is lost or
      rewritten, as many proposals are accepted as versions are added, and each accepted proposal
      expected exactly the version that it replaced. */
  lemma NoUpdateIsLost(s: State, events: seq<Event>, more: seq<Event>, p: Id)
    requires Start(s) && p in s.proposals
    ensures var d := Run(s, events); var later := Run(d, more);
      && p in d.proposals && p in later.proposals
      && (d.proposals[p].status != Pending ==> later.proposals[p].status == d.proposals[p].status)
      && |AcceptedIn(d)| - |AcceptedIn(s)| == Version(d) - Version(s)
      && (forall v :: v in d.history ==> v in later.history && later.history[v] == d.history[v])
      && (forall v :: v in d.history <==> 1 <= v <= Version(d))
      && (d.proposals[p].status == Accepted ==> ReplacedExpected(d, s.proposals[p], p))
  {
    hide Safe, LockOwned, AcceptedIn, Ledger, Run;
    RunKeeps(s, events);
    RunKeeps(Run(s, events), more);
    LedgerMeans(Run(s, events), p);
  }

  /** The accepted proposal is the version right after the one it expected. */
  ghost predicate ReplacedExpected(d: State, p: Proposal, pid: Id) {
    p.expected + 1 in d.history && d.history[p.expected + 1] == Entry(pid, p.content)
  }

  lemma LedgerMeans(d: State, p: Id)
    requires Ledger(d.proposals, d.canonical, d.history) && p in d.proposals
    ensures forall v :: v in d.history <==> 1 <= v <= Version(d)
    ensures d.proposals[p].status == Accepted ==> ReplacedExpected(d, d.proposals[p], p)
  {
    if d.proposals[p].status == Accepted {
      assert BecameVersion(d.proposals, d.history, p);
      assert Backed(d.proposals, d.history, d.proposals[p].expected + 1);
    }
  }

  // ---------------------------------------------------------------- a review that nothing disturbs

  lemma RunOn(s: State, e: Event, rest: seq<Event>)
    ensures Run(s, [e] + rest) == Run(After(s, e), rest)
  {
    assert ([e] + rest)[1..] == rest;
  }

  /** Nobody holds the mutex or the row of the proposal, and the replica has no transaction yet. */
  ghost predicate Free(s: State, t: Replica, pid: Id) {
    && t !in s.phases && pid in s.proposals && s.proposals[pid].status == Pending && pid !in s.rowLocks
    && (s.mutex == Absent || s.mutex == Unlocked) && forall v :: v in s.history ==> v <= Version(s)
  }

  /** The events of one review from its first read to its commit. */
  function Review(s: State, t: Replica, pid: Id, accept: bool): seq<Event>
    requires pid in s.proposals
  {
    if !accept then [Begin(t, pid, false), Settle(t), Commit(t)]
    else if s.proposals[pid].quarantined then [Begin(t, pid, true)]
    else
      (if s.mutex == Absent then [Begin(t, pid, true), LookForMutex(t), InsertMutex(t), Compare(t), Settle(t)]
       else [Begin(t, pid, true), LookForMutex(t), Compare(t), Settle(t)])
      + if s.proposals[pid].expected == Version(s) then [Write(t), Commit(t)] else [Commit(t)]
  }

  /** What a review leaves when nothing disturbs it: a rejection or a conflict marks the proposal; an acceptance
      makes it the canonical value and the next version; a quarantined one is not accepted. */
  function Decided(s: State, pid: Id, accept: bool): State
    requires pid in s.proposals
  {
    var p := s.proposals[pid];
    if !accept then s.(proposals := s.proposals[pid := p.(status := Rejected)])
    else if p.quarantined then s
    else if p.expected != Version(s) then s.(proposals := s.proposals[pid := p.(status := Conflicted)], mutex := Unlocked)
    else s.(proposals := s.proposals[pid := p.(status := Accepted)],
            canonical := Some(Canonical(p.content, p.expected + 1)),
            history := s.history[p.expected + 1 := Entry(pid, p.content)],
            mutex := Unlocked)
  }

  /** Ending gives back the row lock that was taken, and no other. */
  lemma EndingUnlocks(s: State, t: Replica, pid: Id, locks: map<Id, Replica>, commit: bool)
    requires pid !in locks && (forall p :: p in locks ==> locks[p] != t) && s.rowLocks == locks[pid := t]
    ensures Ending(s, t, commit) == s.(mutex := Released(s.mutex, t, commit), rowLocks := locks, phases := s.phases[t := Ended])
  {
    assert Ending(s, t, commit).rowLocks == locks;
  }

  lemma BeginAlone(s: State, t: Replica, pid: Id, accept: bool)
    requires Free(s, t, pid)
    ensures After(s, Begin(t, pid, accept)) == At(s, t, if accept && s.proposals[pid].quarantined then Ended else Seen(pid, accept))
  {
  }

  lemma SettleAlone(s: State, t: Replica, pid: Id, status: Status, current: nat)
    requires t in s.phases && pid in s.proposals && pid !in s.rowLocks && s.proposals[pid].status == Pending
    requires || (s.phases[t] == Seen(pid, false) && status == Rejected && current == 0)
             || (s.phases[t] == Compared(pid, current) && status == if s.proposals[pid].expected == current then Accepted else Conflicted)
    ensures After(s, Settle(t)) == At(s, t, Phase.Settled(pid, status, current)).(rowLocks := s.rowLocks[pid := t])
  {
  }

  lemma WriteAlone(s: State, t: Replica, pid: Id, current: nat)
    requires t in s.phases && s.phases[t] == Phase.Settled(pid, Accepted, current)
    ensures After(s, Write(t)) == At(s, t, Written(pid, current))
  {
  }

  /** The commit of a rejection or a conflict. */
  lemma CommitMark(s: State, t: Replica, pid: Id, status: Status, current: nat, locks: map<Id, Replica>)
    requires t in s.phases && s.phases[t] == Phase.Settled(pid, status, current) && status != Accepted && pid in s.proposals
    requires pid !in locks && (forall p :: p in locks ==> locks[p] != t) && s.rowLocks == locks[pid := t]
    ensures After(s, Commit(t)) == WithStatus(s, pid, status).(mutex := Released(s.mutex, t, true), rowLocks := locks,
                                                               phases := s.phases[t := Ended])
  {
    hide Ending, Released;
    EndingUnlocks(WithStatus(s, pid, status), t, pid, locks, true);
  }

  /** The commit of an acceptance. */
  lemma CommitVersion(s: State, t: Replica, pid: Id, current: nat, locks: map<Id, Replica>)
    requires t in s.phases && s.phases[t] == Written(pid, current) && pid in s.proposals && current + 1 !in s.history
    requires pid !in locks && (forall p :: p in locks ==> locks[p] != t) && s.rowLocks == locks[pid := t]
    ensures After(s, Commit(t)) ==
      WithStatus(s, pid, Accepted).(canonical := Some(Canonical(s.proposals[pid].content, current + 1)),
                                    history := s.history[current + 1 := Entry(pid, s.proposals[pid].content)],
                                    mutex := Released(s.mutex, t, true), rowLocks := locks, phases := s.phases[t := Ended])
  {
    hide Ending, Released;
    var published := WithStatus(s, pid, Accepted).(canonical := Some(Canonical(s.proposals[pid].content, current + 1)),
                                                   history := s.history[current + 1 := Entry(pid, s.proposals[pid].content)]);
    EndingUnlocks(published, t, pid, locks, true);
  }

  /** The row lock of nobody is the replica's. */
  ghost predicate HoldsNone(s: State, t: Replica) { forall p :: p in s.rowLocks ==> s.rowLocks[p] != t }

  lemma AloneRejects(s: State, t: Replica, pid: Id)
    requires Free(s, t, pid) && HoldsNone(s, t)
    ensures Run(s, Review(s, t, pid, false)) == Decided(s, pid, false).(phases := s.phases[t := Ended])
  {
    hide Next, Run;
    var begun := At(s, t, Seen(pid, false));
    var settled := At(begun, t, Phase.Settled(pid, Rejected, 0)).(rowLocks := s.rowLocks[pid := t]);
    BeginAlone(s, t, pid, false);
    SettleAlone(begun, t, pid, Rejected, 0);
    CommitMark(settled, t, pid, Rejected, 0, s.rowLocks);
    RunThree(s, Begin(t, pid, false), Settle(t), Commit(t));
  }

  lemma RunThree(s: State, a: Event, b: Event, c: Event)
    ensures Run(s, [a, b, c]) == After(After(After(s, a), b), c)
  {
    hide Next, After;
    RunOn(s, a, [b, c]);
    RunOn(After(s, a), b, [c]);
    RunOn(After(After(s, a), b), c, []);
    assert [a] + [b, c] == [a, b, c] && [b] + [c] == [b, c] && [c] + [] == [c];
  }

  /** The way to the comparison: the mutex is found, or inserted. */
  function Approach(s: State, t: Replica, pid: Id): seq<Event> {
    if s.mutex == Absent then [Begin(t, pid, true), LookForMutex(t), InsertMutex(t), Compare(t)]
    else [Begin(t, pid, true), LookForMutex(t), Compare(t)]
  }

  function AtComparison(s: State, t: Replica, pid: Id): State {
    At(s, t, Compared(pid, Version(s))).(mutex := if s.mutex == Absent then Inserted(t) else LockedBy(t))
  }

  lemma AcquireAlone(s: State, t: Replica, pid: Id)
    requires t in s.phases && s.phases[t] == Seen(pid, true) && (s.mutex == Absent || s.mutex == Unlocked)
    ensures s.mutex == Unlocked ==> After(s, LookForMutex(t)) == At(s, t, Holding(pid)).(mutex := LockedBy(t))
    ensures s.mutex == Absent ==> After(After(s, LookForMutex(t)), InsertMutex(t)) == At(s, t, Holding(pid)).(mutex := Inserted(t))
  {
    if s.mutex == Absent { assert After(s, LookForMutex(t)) == At(s, t, Inserting(pid)); }
  }

  lemma CompareAlone(s: State, t: Replica, pid: Id)
    requires t in s.phases && s.phases[t] == Holding(pid)
    ensures After(s, Compare(t)) == At(s, t, Compared(pid, Version(s)))
  {
  }

  lemma AloneCompares(s: State, t: Replica, pid: Id, rest: seq<Event>)
    requires Free(s, t, pid) && !s.proposals[pid].quarantined
    ensures Run(s, Approach(s, t, pid) + rest) == Run(AtComparison(s, t, pid), rest)
  {
    hide Next, After, Run;
    var begun := At(s, t, Seen(pid, true));
    var held := At(s, t, Holding(pid)).(mutex := if s.mutex == Absent then Inserted(t) else LockedBy(t));
    BeginAlone(s, t, pid, true);
    AcquireAlone(begun, t, pid);
    CompareAlone(held, t, pid);
    RunOn(held, Compare(t), rest);
    assert At(held, t, Compared(pid, Version(held))) == AtComparison(s, t, pid);
    assert At(begun, t, Holding(pid)) == At(s, t, Holding(pid));
    if s.mutex == Absent {
      RunOn(After(begun, LookForMutex(t)), InsertMutex(t), [Compare(t)] + rest);
      RunOn(begun, LookForMutex(t), [InsertMutex(t)] + ([Compare(t)] + rest));
      RunOn(s, Begin(t, pid, true), [LookForMutex(t)] + ([InsertMutex(t)] + ([Compare(t)] + rest)));
      assert Approach(s, t, pid) + rest == [Begin(t, pid, true)] + ([LookForMutex(t)] + ([InsertMutex(t)] + ([Compare(t)] + rest)));
    } else {
      RunOn(begun, LookForMutex(t), [Compare(t)] + rest);
      RunOn(s, Begin(t, pid, true), [LookForMutex(t)] + ([Compare(t)] + rest));
      assert Approach(s, t, pid) + rest == [Begin(t, pid, true)] + ([LookForMutex(t)] + ([Compare(t)] + rest));
    }
  }

  lemma AloneSettles(s: State, t: Replica, pid: Id)
    requires Free(s, t, pid) && HoldsNone(s, t)
    ensures Run(AtComparison(s, t, pid), [Settle(t)] + (if s.proposals[pid].expected == Version(s) then [Write(t), Commit(t)] else [Commit(t)]))
         == if s.proposals[pid].expected == Version(s)
            then s.(proposals := s.proposals[pid := s.proposals[pid].(status := Accepted)],
                    canonical := Some(Canonical(s.proposals[pid].content, Version(s) + 1)),
                    history := s.history[Version(s) + 1 := Entry(pid, s.proposals[pid].content)],
                    mutex := Unlocked, phases := s.phases[t := Ended])
            else s.(proposals := s.proposals[pid := s.proposals[pid].(status := Conflicted)], mutex := Unlocked,
                    phases := s.phases[t := Ended])
  {
    hide Next, After, Run;
    var compared := AtComparison(s, t, pid);
    var status := if s.proposals[pid].expected == Version(s) then Accepted else Conflicted;
    var settled := At(compared, t, Phase.Settled(pid, status, Version(s))).(rowLocks := s.rowLocks[pid := t]);
    SettleAlone(compared, t, pid, status, Version(s));
    if status == Accepted {
      var written := At(settled, t, Written(pid, Version(s)));
      WriteAlone(settled, t, pid, Version(s));
      CommitVersion(written, t, pid, Version(s), s.rowLocks);
      RunThree(compared, Settle(t), Write(t), Commit(t));
      assert [Settle(t)] + [Write(t), Commit(t)] == [Settle(t), Write(t), Commit(t)];
    } else {
      CommitMark(settled, t, pid, status, Version(s), s.rowLocks);
      RunTwo(compared, Settle(t), Commit(t));
      assert [Settle(t)] + [Commit(t)] == [Settle(t), Commit(t)];
    }
  }

  lemma RunTwo(s: State, a: Event, b: Event)
    ensures Run(s, [a, b]) == After(After(s, a), b)
  {
    hide Next, After;
    RunOn(s, a, [b]);
    RunOn(After(s, a), b, []);
    assert [a] + [b] == [a, b] && [b] + [] == [b];
  }

  /** One review alone, run to its end, decides as it should. */
  lemma AloneDecides(s: State, t: Replica, pid: Id, accept: bool)
    requires Free(s, t, pid) && HoldsNone(s, t)
    ensures Run(s, Review(s, t, pid, accept)) == Decided(s, pid, accept).(phases := s.phases[t := Ended])
  {
    hide Next, After, Version;
    if !accept { AloneRejects(s, t, pid); }
    else if s.proposals[pid].quarantined {
      BeginAlone(s, t, pid, true);
      RunOn(s, Begin(t, pid, true), []);
      assert [Begin(t, pid, true)] + [] == [Begin(t, pid, true)];
    } else {
      var last := if s.proposals[pid].expected == Version(s) then [Write(t), Commit(t)] else [Commit(t)];
      AloneCompares(s, t, pid, [Settle(t)] + last);
      AloneSettles(s, t, pid);
      assert Review(s, t, pid, true) == Approach(s, t, pid) + ([Settle(t)] + last);
    }
  }
}
