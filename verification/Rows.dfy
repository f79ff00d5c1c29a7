/** The durable record of one experiment and the repository's operations on it.

    The tables of transitions, attempts and observations are keyed by the experiment, so each
    row carries its own. */
module Rows {
  import opened Wrappers
  import opened Lifecycle

  type Id = nat
  type Instance = nat
  type Target = nat

  datatype Kind = CpuPressure | ApacheStop | DiskPressure | Custom(probes: bool, confirms: bool) | Unlisted

  // duration_seconds and the two scenario-specific integers.
  datatype Parameters = Parameters(duration: int, first: int, second: int)

  // The ownership entries of a cleanup context whose value is "true".
  datatype Proof = ApacheStopConfirmed | WorkloadOwned | ArtifactOwned

  datatype Outcome = CancelledPending | Final(state: State)
  datatype Attention = AttemptsExhausted | VerificationFailed

  datatype Reason =
    | Scheduled | PreflightStarted | PreflightRefused | PreflightPassed | InjectionVerified
    | InjectionUncertain | RestartUncertainInjection | DeadlineReached | AbortRequested
    | CleanupRequired | CleanupSucceeded | CleanupRefused | VerificationEnded(ok: bool)

  datatype Transition =
    Transition(sequence: nat, from: Option<State>, to: State, reason: Reason, actor: string, revision: nat)

  datatype Attempt = Attempt(number: nat, ok: bool, answered: bool, startedAt: int, completedAt: int)

  datatype Phase = Before | During | After
  datatype Observation = Observation(phase: Phase, sequence: nat, sight: Sight)
  datatype Sight = Seen(statusCode: nat, durationMs: nat, contentMatched: bool) | Unseen(category: string)

  datatype Row = Row(
    kind: Kind, parameters: Parameters, target: Target, createdAt: int, expiresAt: int,
    state: State, revision: nat,
    owner: Option<Instance>, leaseUntil: int,
    context: Option<set<Proof>>, outcome: Option<Outcome>, attention: Option<Attention>,
    audit: seq<Transition>, attempts: seq<Attempt>, observations: seq<Observation>)

  function NewRow(kind: Kind, parameters: Parameters, target: Target, createdAt: int, expiresAt: int,
                  actor: string): Row {
    Row(kind, parameters, target, createdAt, expiresAt, Planned, 0, None, 0, None, None, None,
        [Transition(1, None, Planned, Scheduled, actor, 0)], [], [])
  }

  /******* transition: compare-and-swap on the revision, then one audit entry *******/

  datatype Swap = Moved(row: Row) | Refused | Stale

  // `seen` is the state of the caller's possibly cached row, `stored` the row in the database.
  function CasTransition(seen: State, stored: Row, target: State, reason: Reason, actor: string,
                         expected: int): Swap {
    if !Allowed(seen, target) then Refused
    else if stored.revision != expected then Stale
    else Moved(stored.(state := target, revision := stored.revision + 1,
                       audit := stored.audit +
                                [Transition(stored.revision + 2, Some(seen), target, reason, actor,
                                            stored.revision + 1)]))
  }

  /******* The audit log *******/

  // Numbered 1..revision+1, chained, legal at every step, ending in the row's state.
  ghost predicate Consistent(r: Row) {
    && |r.audit| == r.revision + 1
    && r.audit[0].from == None && r.audit[0].to == Planned
    && (forall i :: 0 <= i < |r.audit| ==> r.audit[i].sequence == i + 1 && r.audit[i].revision == i)
    && (forall i :: 1 <= i < |r.audit| ==>
          r.audit[i].from == Some(r.audit[i-1].to) && Allowed(r.audit[i-1].to, r.audit[i].to))
    && r.audit[|r.audit| - 1].to == r.state
  }

  // Reading the log back: the state and revision it leads to, None if an entry does not continue.
  function Replay(log: seq<Transition>): Option<(State, nat)> {
    if |log| == 0 then None
    else
      var last := log[|log| - 1];
      if |log| == 1 then
        if last.from.None? && last.sequence == 1 then Some((last.to, 0)) else None
      else
        match Replay(log[..|log| - 1])
        case None => None
        case Some((state, revision)) =>
          if last.from == Some(state) && Allowed(state, last.to) && last.sequence == revision + 2
          then Some((last.to, revision + 1)) else None
  }

  lemma {:induction false} ReplayPrefix(r: Row, n: nat)
    requires Consistent(r) && 1 <= n <= |r.audit|
    ensures Replay(r.audit[..n]) == Some((r.audit[n-1].to, n - 1))
  {
    if n > 1 {
      ReplayPrefix(r, n - 1);
      assert r.audit[..n][..n - 1] == r.audit[..n - 1];
    }
  }

  // Replaying the whole log yields the row's current state and revision.
  lemma ReplayYieldsRow(r: Row)
    requires Consistent(r)
    ensures Replay(r.audit) == Some((r.state, r.revision))
  {
    ReplayPrefix(r, |r.audit|);
    assert r.audit[..|r.audit|] == r.audit;
  }

  // A successful swap keeps the log consistent exactly when the state it was asked from is the
  // state actually stored.
  lemma SwapKeepsLog(seen: State, stored: Row, target: State, reason: Reason, actor: string, expected: int)
    requires Consistent(stored)
    requires CasTransition(seen, stored, target, reason, actor, expected).Moved?
    ensures Consistent(CasTransition(seen, stored, target, reason, actor, expected).row) <==> seen == stored.state
  {
    var after := CasTransition(seen, stored, target, reason, actor, expected).row;
    var n := |stored.audit|;
    assert after.audit[n].from == Some(seen);
    assert after.audit[n - 1] == stored.audit[n - 1];
    if seen == stored.state {
      forall i | 1 <= i < |after.audit|
        ensures after.audit[i].from == Some(after.audit[i-1].to) && Allowed(after.audit[i-1].to, after.audit[i].to)
      {
        if i < n {
          assert after.audit[i] == stored.audit[i] && after.audit[i-1] == stored.audit[i-1];
        }
      }
      forall i | 0 <= i < |after.audit|
        ensures after.audit[i].sequence == i + 1 && after.audit[i].revision == i
      {
        if i < n { assert after.audit[i] == stored.audit[i]; }
      }
      assert after.audit[0] == stored.audit[0];
    }
  }

  /******* Attempts and observations *******/

  function MaxAttempt(attempts: seq<Attempt>): (m: nat)
    ensures forall a <- attempts :: a.number <= m
    ensures m == 0 || exists a <- attempts :: a.number == m
  {
    if attempts == [] then 0
    else
      var rest := MaxAttempt(attempts[..|attempts| - 1]);
      var last := attempts[|attempts| - 1].number;
      assert attempts == attempts[..|attempts| - 1] + [attempts[|attempts| - 1]];
      if last > rest then last else rest
  }

  function NextAttempt(attempts: seq<Attempt>): nat { MaxAttempt(attempts) + 1 }

  function MaxSequence(observations: seq<Observation>, phase: Phase): (m: nat)
    ensures forall o <- observations :: o.phase == phase ==> o.sequence <= m
    ensures m == 0 || exists o <- observations :: o.phase == phase && o.sequence == m
  {
    if observations == [] then 0
    else
      var rest := MaxSequence(observations[..|observations| - 1], phase);
      var last := observations[|observations| - 1];
      assert observations == observations[..|observations| - 1] + [last];
      if last.phase == phase && last.sequence > rest then last.sequence else rest
  }

  function NextSequence(observations: seq<Observation>, phase: Phase): nat { MaxSequence(observations, phase) + 1 }

  // Attempts numbered 1..n in the order they were made.
  ghost predicate AttemptsNumbered(attempts: seq<Attempt>) {
    forall i :: 0 <= i < |attempts| ==> attempts[i].number == i + 1
  }

  lemma NumberedMax(attempts: seq<Attempt>)
    requires AttemptsNumbered(attempts)
    ensures MaxAttempt(attempts) == |attempts|
  {
    if attempts != [] {
      assert attempts[|attempts| - 1] in attempts;
    }
  }

  /******* Leases *******/

  predicate LeaseFree(r: Row, now: int) {
    r.owner.None? || r.leaseUntil < now
  }

  function ClaimRow(r: Row, instance: Instance, now: int, seconds: int): Row {
    r.(owner := Some(instance), leaseUntil := now + seconds)
  }

  function RenewRow(r: Row, instance: Instance, now: int, seconds: int): Row {
    if r.owner == Some(instance) then r.(leaseUntil := now + seconds) else r
  }

  function ReleaseRow(r: Row, instance: Instance): Row {
    if r.owner == Some(instance) then r.(owner := None, leaseUntil := 0) else r
  }
}
