/** Claims racing on one job: any number of replicas with stale snapshots and clocks of their own,
    deciding by the conditional update alone, committing or aborting in any order. */
module ClaimRace {
  import opened Base
  import opened Tables
  import opened JobOps

  type Replica = nat

  /** A claim that committed: who, which attempt, and the token handed out. */
  datatype Win = Win(replica: Replica, attempt: nat, token: string)

  datatype Phase =
    | Saw(fence: nat, now: int)              // the job was read, and looked claimable
    | Won(fence: nat, token: string)         // the conditional update changed the row; not yet committed
    | Ended

  /** The committed row, the uncommitted row of the one writer that may exist, and the claims that
      committed so far, in order. */
  datatype State = State(job: Job, writer: Option<(Replica, Job)>, wins: seq<Win>, phases: map<Replica, Phase>)

  datatype Event =
    | Read(t: Replica, now: int)
    | Update(t: Replica, token: string, seconds: int)
    | Commit(t: Replica)
    | Abort(t: Replica)
    | Renew(token: string, now: int, seconds: int)
    | Finish(status: JobStatus)              // a submission, a review or a cancellation, under the row lock

  function At(s: State, t: Replica, phase: Phase): State { s.(phases := s.phases[t := phase]) }

  predicate LooksClaimable(job: Job, now: int) {
    (job.status == Queued || (job.status == Claimed && Expired(job, now))) && job.attempts < MAX_ATTEMPTS
  }

  /** The conditional update waits for the writer of the row, then tests the committed row, which may
      have changed since it was read. */
  function Updated(s: State, t: Replica, token: string, seconds: int): Option<State>
    requires t in s.phases && s.phases[t].Saw?
  {
    var phase := s.phases[t];
    if s.writer.Some? then None
    else if !Claimable(s.job, phase.fence, phase.now) then Some(At(s, t, Ended))
    else Some(At(s, t, Won(phase.fence, token)).(writer := Some((t, ClaimedRow(s.job, token, phase.now, seconds)))))
  }

  function Next(s: State, e: Event): Option<State> {
    match e
    case Read(t, now) =>
      if t in s.phases then None
      else Some(At(s, t, if LooksClaimable(s.job, now) then Saw(s.job.attempts, now) else Ended))
    case Update(t, token, seconds) =>
      if t in s.phases && s.phases[t].Saw? then Updated(s, t, token, seconds) else None
    case Commit(t) =>
      if t in s.phases && s.phases[t].Won? && s.writer.Some? && s.writer.value.0 == t
      then Some(At(s, t, Ended).(job := s.writer.value.1, writer := None,
                                 wins := s.wins + [Win(t, s.writer.value.1.attempts, s.phases[t].token)]))
      else None
    case Abort(t) =>
      if t in s.phases
      then Some(At(s, t, Ended).(writer := if s.writer.Some? && s.writer.value.0 == t then None else s.writer))
      else None
    case Renew(token, now, seconds) =>
      if s.writer.None? && s.job.status == Claimed && !Expired(s.job, now) && s.job.token == Some(token)
      then Some(s.(job := RenewedRow(s.job, now + seconds * SECOND)))
      else None
    case Finish(status) =>
      if s.writer.None? && status != Queued && status != Claimed && !Terminal(s.job.status)
      then Some(s.(job := if Terminal(status) then EndedRow(s.job, status) else s.job.(status := status)))
      else None
  }

  function After(s: State, e: Event): State {
    var next := Next(s, e);
    if next.Some? then next.value else s
  }

  function Run(s: State, events: seq<Event>): State
    decreases |events|
  {
    if events == [] then s else Run(After(s, events[0]), events[1..])
  }

  // ---------------------------------------------------------------- the invariant

  /** Attempt by attempt, the claims that committed. */
  ghost predicate Numbered(wins: seq<Win>) {
    forall i :: 0 <= i < |wins| ==> wins[i].attempt == i + 1
  }

  /** The row counts exactly the claims that committed, and holds the token of the last. */
  ghost predicate Counted(job: Job, wins: seq<Win>) {
    && job.attempts == |wins| <= MAX_ATTEMPTS
    && (job.status == Queued ==> wins == [] && job.token == None)
    && (job.status == Claimed ==> wins != [])
    && (job.token.Some? ==> wins != [] && job.token.value == wins[|wins| - 1].token)
  }

  ghost predicate WriterSafe(s: State) {
    s.writer.Some? ==>
      var t, row := s.writer.value.0, s.writer.value.1;
      && t in s.phases && s.phases[t].Won?
      && row.attempts == |s.wins| + 1 <= MAX_ATTEMPTS
      && row.status == Claimed && row.token == Some(s.phases[t].token)
  }

  ghost predicate PhaseSafe(s: State, t: Replica)
    requires t in s.phases
  {
    && (s.phases[t].Saw? ==> s.phases[t].fence < MAX_ATTEMPTS)
    && (s.phases[t].Won? ==> s.writer.Some? && s.writer.value.0 == t)
  }

  ghost predicate Inv(s: State) {
    && Numbered(s.wins)
    && Counted(s.job, s.wins)
    && WriterSafe(s)
    && forall t :: t in s.phases ==> PhaseSafe(s, t)
  }

  lemma Keep(s: State, e: Event)
    requires Inv(s)
    ensures Inv(After(s, e)) && s.wins <= After(s, e).wins
  {
    var next := After(s, e);
    if Next(s, e).Some? {
      forall t | t in next.phases ensures PhaseSafe(next, t) { if t in s.phases { assert PhaseSafe(s, t); } }
      if e.Update? { assert PhaseSafe(s, e.t); }
    }
  }

  /** A job as it was created, with no claim yet and no transaction open. */
  ghost predicate Start(s: State) {
    s.writer == None && s.phases == map[] && s.wins == [] && s.job.attempts == 0 && s.job.status == Queued && s.job.token == None
  }

  lemma {:induction false} RunKeeps(s: State, events: seq<Event>)
    requires Inv(s)
    ensures Inv(Run(s, events)) && s.wins <= Run(s, events).wins
    decreases |events|
  {
    hide Inv, After;
    if events != [] {
      Keep(s, events[0]);
      RunKeeps(After(s, events[0]), events[1..]);
    }
  }

  /** Whatever the interleaving: each attempt number has at most one winner, the tokens issued are as
      many as the attempts, at most five, and the row holds the token of the latest winner or none. */
  lemma OneWinnerPerAttempt(s: State, events: seq<Event>, more: seq<Event>, i: nat, j: nat)
    requires Start(s)
    ensures var d := Run(s, events); var later := Run(d, more);
      && |d.wins| == d.job.attempts <= MAX_ATTEMPTS
      && d.wins <= later.wins
      && (i < |d.wins| && j < |d.wins| && d.wins[i].attempt == d.wins[j].attempt ==> i == j)
      && (d.job.token.Some? ==> d.wins != [] && d.job.token.value == d.wins[|d.wins| - 1].token)
  {
    hide PhaseSafe, WriterSafe, Run;
    StartSafe(s);
    RunKeeps(s, events);
    RunKeeps(Run(s, events), more);
  }

  lemma StartSafe(s: State)
    requires Start(s)
    ensures Inv(s)
  {
  }

  /** One claim alone wins exactly when the job is queued, or claimed and past its lease, and has attempts left;
      then it holds the job with the next attempt, its token and its lease, and otherwise nothing changes. */
  lemma AloneClaims(s: State, t: Replica, now: int, token: string, seconds: int)
    requires t !in s.phases && s.writer.None? && (s.job.status == Claimed ==> s.job.lease.Some?)
    ensures var d := Run(s, [Read(t, now), Update(t, token, seconds), Commit(t)]);
      d == if (s.job.status == Queued || (s.job.status == Claimed && s.job.lease.value < now)) && s.job.attempts < 5
           then s.(job := s.job.(status := Claimed, token := Some(token), lease := Some(now + seconds * 1_000_000),
                                 attempts := s.job.attempts + 1),
                   wins := s.wins + [Win(t, s.job.attempts + 1, token)],
                   phases := s.phases[t := Ended])
           else s.(phases := s.phases[t := Ended])
  {
    var read := After(s, Read(t, now));
    var updated := After(read, Update(t, token, seconds));
    var committed := After(updated, Commit(t));
    assert [Read(t, now), Update(t, token, seconds), Commit(t)][1..] == [Update(t, token, seconds), Commit(t)];
    assert [Update(t, token, seconds), Commit(t)][1..] == [Commit(t)];
    assert [Commit(t)][1..] == [];
    assert Run(committed, []) == committed;
    assert Run(updated, [Commit(t)]) == committed;
    assert Run(read, [Update(t, token, seconds), Commit(t)]) == committed;
  }
}
