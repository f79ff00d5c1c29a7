/** The durable protocol of one experiment: which port calls and which commits may follow each
    durable condition. It says nothing of control flow, sessions or crashes; the coordinator and
    the supervisor are proved to follow it at every point where the process may die. */
module Protocol {
  import opened Wrappers
  import opened Lifecycle
  import opened Rows
  import opened Machine
  import opened Evidence

  predicate Latest(log: Log, e: Event) { log.Logged? && log.event == e }

  predicate LatestProof(log: Log) { log.Logged? && log.event.InjectProved? }

  // Both preflights passed, in the pass of the coordinator that is still running.
  predicate Cleared(kind: Kind, log: Log) {
    Latest(log, Checked(true)) && Baselined(kind, log.earlier)
  }

  predicate Baselined(kind: Kind, log: Log) {
    if HasPreflight(kind) then Latest(log, Probed(true)) && Latest(log.earlier, Entered)
    else Latest(log, Entered)
  }

  predicate AwaitingAnswer(log: Log, call: Event) {
    Latest(log, call) || (Latest(log, Restored) && Latest(log.earlier, call))
  }

  predicate EventAllowed(r: Row, log: Log, e: Event) {
    match e
    case Entered => Claimable(r.state)
    case Probed(_) => r.state in {Planned, Preflight} && HasPreflight(r.kind) && Latest(log, Entered)
    case Checked(_) => r.state in {Planned, Preflight} && Baselined(r.kind, log)
    case InjectCalled => r.state == Injecting && Cleared(r.kind, log)
    case InjectProved(reading) => r.state == Injecting && Latest(log, InjectCalled) && InjectionProved(r.kind, reading)
    case CleanupCalled => r.state == CleaningUp
    case CleanupAnswered(ok) =>
      && r.state == CleaningUp && AwaitingAnswer(log, CleanupCalled)
      && (ok ==> Owned(r.kind, r.context))
    case VerifyCalled => r.state == CleaningUp && Latest(log, CleanupAnswered(true))
    case VerifyAnswered(_) => r.state == CleaningUp && AwaitingAnswer(log, VerifyCalled)
    case Restored =>
      && OwnershipProof(r.kind).Some? && Owned(r.kind, r.context)
      && r.state == CleaningUp && (Latest(log, CleanupCalled) || Latest(log, VerifyCalled))
  }

  /******* Commits *******/

  predicate SameExperiment(r: Row, r': Row) {
    && r'.kind == r.kind && r'.parameters == r.parameters && r'.target == r.target
    && r'.createdAt == r.createdAt && r'.expiresAt == r.expiresAt
  }

  // The transitions one commit makes durable together.
  function Route(from: State, to: State): seq<State> {
    if from == to then []
    else if from == Planned && to in {Injecting, Failed} then [State.Preflight, to]
    else if from == CleaningUp && to in {Passed, Cancelled, OperatorAttention} then [Verifying, to]
    else [to]
  }

  // The reason the log gives for a step.
  predicate Explains(from: State, to: State, reason: Reason) {
    match to
    case Planned => false
    case Preflight => reason == PreflightStarted
    case Injecting => reason == PreflightPassed
    case Failed => reason == PreflightRefused
    case Active => reason == InjectionVerified
    case Expired => reason == DeadlineReached
    case CancellationRequested => reason == AbortRequested
    case CleaningUp =>
      if from == Injecting then reason in {InjectionUncertain, RestartUncertainInjection} else reason == CleanupRequired
    case CleanupFailed => reason == CleanupRefused
    case Verifying => reason == CleanupSucceeded
    case Passed => reason == VerificationEnded(true)
    case Cancelled => reason == if from == Planned then AbortRequested else VerificationEnded(true)
    case OperatorAttention => reason == VerificationEnded(false)
  }

  predicate Justified(entry: Transition) {
    entry.from.Some? && Explains(entry.from.value, entry.to, entry.reason)
  }

  ghost predicate Follows(r: Row, r': Row) {
    var route := Route(r.state, r'.state);
    && Consistent(r')
    && |r'.audit| == |r.audit| + |route|
    && r'.audit[..|r.audit|] == r.audit
    && forall i :: 0 <= i < |route| ==> r'.audit[|r.audit| + i].to == route[i] && Justified(r'.audit[|r.audit| + i])
  }

  // How often the log enters a state.
  function Count(audit: seq<Transition>, s: State): nat {
    if audit == [] then 0
    else Count(audit[..|audit| - 1], s) + if audit[|audit| - 1].to == s then 1 else 0
  }

  predicate Mentions(audit: seq<Transition>, s: State) { Count(audit, s) > 0 }

  predicate MoveAllowed(r: Row, to: State, log: Log, limit: nat) {
    match to
    case Planned => false
    case Preflight => r.state == Planned
    case Injecting => r.state in {Planned, State.Preflight} && Cleared(r.kind, log)
    case Failed => r.state in {Planned, State.Preflight} && (Latest(log, Checked(false)) || Latest(log, Probed(false)))
    case Active => r.state == Injecting && r.context.Some? && Owned(r.kind, r.context)
    case Expired => r.state == Active
    case CancellationRequested => r.state == Active
    case CleaningUp => r.state in {Injecting, Expired, CancellationRequested, CleanupFailed}
    case CleanupFailed =>
      && r.state == CleaningUp && Latest(log, CleanupAnswered(false))
      && Count(r.audit, CleanupFailed) < |r.attempts| < limit
    case Verifying => r.state == CleaningUp && log.Logged? && log.event.VerifyAnswered?
    case Passed =>
      && r.state in {CleaningUp, Verifying} && Latest(log, VerifyAnswered(true))
      && r.outcome != Some(CancelledPending)
    case Cancelled =>
      || r.state == Planned
      || (&& r.state in {CleaningUp, Verifying} && Latest(log, VerifyAnswered(true))
          && r.outcome == Some(CancelledPending))
    case OperatorAttention => r.state in {CleaningUp, Verifying} && Latest(log, VerifyAnswered(false))
  }

  predicate ContextAllowed(r: Row, r': Row, log: Log) {
    r'.context == r.context
    || (&& r.state == Injecting == r'.state && LatestProof(log)
        && r'.context.Some? && Owned(r.kind, r'.context))
  }

  ghost predicate OutcomeAllowed(r: Row, r': Row) {
    || r'.outcome == r.outcome
    || (r'.outcome == Some(CancelledPending) && r.state == CleaningUp == r'.state
        && Mentions(r.audit, CancellationRequested))
    || (&& r.state in {CleaningUp, Verifying} && Terminal(r'.state) && r'.outcome == Some(Final(r'.state)))
  }

  // A verdict records itself as the outcome, and the reason it needs attention; nothing else does.
  predicate VerdictAllowed(r: Row, r': Row) {
    if r'.state != r.state && r.state in {CleaningUp, Verifying} && Terminal(r'.state) then
      && r'.outcome == Some(Final(r'.state))
      && r'.attention == if r'.state == OperatorAttention then Some(VerificationFailed) else r.attention
    else r'.attention == r.attention
  }

  predicate AttemptsAllowed(r: Row, r': Row, log: Log) {
    || r'.attempts == r.attempts
    || (&& r.state == CleaningUp == r'.state
        && |r'.attempts| == |r.attempts| + 1 && r'.attempts[..|r.attempts|] == r.attempts
        && r'.attempts[|r.attempts|].number == |r'.attempts|
        && Latest(log, CleanupAnswered(r'.attempts[|r.attempts|].ok)))
  }

  predicate PhaseAllowed(r: Row, r': Row, phase: Phase) {
    match phase
    case Before => r.state in {Planned, State.Preflight} && r'.state == State.Preflight
    case During => r.state == Active == r'.state
    case After => r.state == CleaningUp && r'.state == Verifying
  }

  predicate ObservationsAllowed(r: Row, r': Row) {
    || r'.observations == r.observations
    || (&& |r'.observations| == |r.observations| + 1 && r'.observations[..|r.observations|] == r.observations
        && (var added := r'.observations[|r.observations|];
           added.sequence == NextSequence(r.observations, added.phase) && PhaseAllowed(r, r', added.phase)))
  }

  ghost predicate CommitAllowed(r: Row, r': Row, log: Log, limit: nat) {
    && SameExperiment(r, r')
    && Follows(r, r')
    && (r'.state != r.state ==> MoveAllowed(r, r'.state, log, limit))
    && ContextAllowed(r, r', log)
    && OutcomeAllowed(r, r')
    && VerdictAllowed(r, r')
    && AttemptsAllowed(r, r', log)
    && ObservationsAllowed(r, r')
  }

  /******* Steps and paths *******/

  ghost predicate Step(c: Cell, c': Cell, limit: nat) {
    || (c'.row == c.row && c'.log.Logged? && c'.log.earlier == c.log && EventAllowed(c.row, c.log, c'.log.event))
    || (c'.log == c.log && CommitAllowed(c.row, c'.row, c.log, limit))
  }

  ghost predicate Fresh(c: Cell) {
    && c.log == Silent && c.row.state == Planned && c.row.revision == 0 && Consistent(c.row)
    && c.row.audit[0].reason == Scheduled
    && c.row.context.None? && c.row.outcome.None? && c.row.attention.None? && c.row.attempts == [] && c.row.observations == []
  }

  ghost predicate ValidPath(p: Path, limit: nat) {
    match p
    case Born(c) => Fresh(c)
    case Then(q, c) => ValidPath(q, limit) && Step(q.cell, c, limit)
  }

  // q is p continued.
  predicate Extends(p: Path, q: Path) {
    p == q || (q.Then? && Extends(p, q.before))
  }
}
