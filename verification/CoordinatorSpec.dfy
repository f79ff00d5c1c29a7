/** One pass of the coordinator over one experiment, as a function of the job it starts from. */
module CoordinatorSpec {
  import opened Wrappers
  import opened Lifecycle
  import opened Rows
  import opened Machine
  import opened Evidence
  import Scenarios

  datatype Config = Config(actor: string, maxAttempts: int, observed: bool)
  {
    function Limit(): nat { if maxAttempts < 1 then 1 else maxAttempts }
  }

  function Sighted(j: Job, phase: Phase, sight: Sight): Job {
    j.(live := j.live.(observations := j.live.observations +
                       [Observation(phase, NextSequence(j.live.observations, phase), sight)]))
  }

  function Observe(j: Job, phase: Phase, cfg: Config): JobResult<()> {
    if !cfg.observed then Done((), j)
    else
      var (sight, j) :- AskSite(j);
      Commit(Sighted(j, phase, sight))
  }

  function TransitAndCommit(j: Job, target: State, reason: Reason, actor: string): JobResult<State> {
    var (_, j) :- Transit(j, target, reason, actor);
    var (_, j) :- Commit(j);
    Done(target, j)
  }

  function EnterPreflight(j: Job, cfg: Config): JobResult<()> {
    if j.live.state == Planned then Transit(j, Preflight, PreflightStarted, cfg.actor) else Done((), j)
  }

  function Prepare(j: Job, cfg: Config): JobResult<State> {
    var (_, j) :- EnterPreflight(j, cfg);
    if !ParametersAccepted(j.live.kind, j.live.parameters) then Raised(InvalidParameters, j)
    else
      var (probed, j) :- if HasPreflight(j.live.kind) then Scenarios.Preflight(j) else Done(true, j);
      if !probed then TransitAndCommit(j, Failed, PreflightRefused, cfg.actor) else AfterProbe(j, cfg)
  }

  function AfterProbe(j: Job, cfg: Config): JobResult<State> {
    var (passed, j) :- AskGate(j);
    if !passed then TransitAndCommit(j, Failed, PreflightRefused, cfg.actor)
    else
      var (_, j) :- Observe(j, Before, cfg);
      TransitAndCommit(j, Injecting, PreflightPassed, cfg.actor)
  }

  // The guarded part of an injection: anything it raises makes the injection uncertain.
  function TryInject(j: Job, cfg: Config): JobResult<State> {
    if !ParametersAccepted(j.live.kind, j.live.parameters) then Raised(InvalidParameters, j)
    else
      var (context, j) :- Scenarios.Inject(j);
      var (_, j) :- Commit(j.(live := j.live.(context := Some(context))));
      Confirm(j, cfg)
  }

  function Confirm(j: Job, cfg: Config): JobResult<State> {
    var (confirmed, j) :- if HasVerifyActive(j.live.kind) then Scenarios.VerifyActive(j) else Done(true, j);
    if !confirmed then Raised(EffectUnverified, j)
    else TransitAndCommit(j, Active, InjectionVerified, cfg.actor)
  }

  function Inject(j: Job, cfg: Config): JobResult<State> {
    match TryInject(j, cfg)
    case Done(state, j) => Done(state, j)
    case Died(place, j) => Died(place, j)
    case Raised(_, j) =>
      if j.live.state != Injecting then Done(CleaningUp, j)
      else TransitAndCommit(j, CleaningUp, InjectionUncertain, cfg.actor)
  }

  // None when the call raised.
  function Caught(r: JobResult<bool>): JobResult<Option<bool>> {
    match r
    case Done(ok, j) => Done(Some(ok), j)
    case Raised(_, j) => Done(None, j)
    case Died(place, j) => Died(place, j)
  }

  function AttemptCleanup(j: Job): JobResult<(nat, bool)> {
    var number := NextAttempt(j.live.attempts);
    var (started, j) := ReadClock(j);
    var (answer, j) :- Caught(Scenarios.Cleanup(j));
    var ok := answer == Some(true);
    var (completed, j) := ReadClock(Note(j, CleanupAnswered(ok)));
    var (_, j) :- Commit(RecordAttempt(j, Attempt(number, ok, answer.Some?, started, completed)));
    Done((number, ok), j)
  }

  function Conclusion(cancelled: bool, verified: bool): State {
    if !verified then OperatorAttention else if cancelled then Cancelled else Passed
  }

  function Conclude(j: Job, cancelled: bool, cfg: Config): JobResult<State> {
    var (_, j) :- Transit(j, Verifying, CleanupSucceeded, cfg.actor);
    var (answer, j) :- Caught(Scenarios.VerifyCleanup(j));
    var verified := answer == Some(true);
    var (_, j) :- Observe(Note(j, VerifyAnswered(verified)), Phase.After, cfg);
    Finish(j, cancelled, verified, cfg)
  }

  function Judged(j: Job, cancelled: bool, verified: bool): Job {
    j.(live := j.live.(outcome := Some(Final(Conclusion(cancelled, verified))),
                       attention := if verified then j.live.attention else Some(VerificationFailed)))
  }

  function Finish(j: Job, cancelled: bool, verified: bool, cfg: Config): JobResult<State> {
    TransitAndCommit(Judged(j, cancelled, verified), Conclusion(cancelled, verified), VerificationEnded(verified), cfg.actor)
  }

  function MarkCancelled(j: Job, cancelled: bool): JobResult<()> {
    if cancelled then Commit(j.(live := j.live.(outcome := Some(CancelledPending)))) else Done((), j)
  }

  function Cleanup(j: Job, cancelled: bool, cfg: Config): JobResult<State> {
    var (_, j) :- MarkCancelled(j, cancelled);
    CleanupMarked(j, cancelled, cfg)
  }

  function CleanupMarked(j: Job, cancelled: bool, cfg: Config): JobResult<State> {
    var ((number, ok), j) :- AttemptCleanup(j);
    if ok then Conclude(j, cancelled, cfg)
    else if number >= cfg.Limit() then GiveUp(j, cfg)
    else TransitAndCommit(j, CleanupFailed, CleanupRefused, cfg.actor)
  }

  // The transition asked for here is not in the graph.
  function GiveUp(j: Job, cfg: Config): JobResult<State> {
    var (_, j) :- Transit(j, OperatorAttention, CleanupRefused, cfg.actor);
    var (_, j) :- Commit(j.(live := j.live.(attention := Some(AttemptsExhausted))));
    Done(OperatorAttention, j)
  }

  // An active row either expires or is observed once more.
  function Attend(j: Job, cfg: Config): JobResult<State> {
    if j.live.state != Active then Done(j.live.state, j)
    else
      var (now, j) := ReadClock(j);
      if now >= j.live.expiresAt then TransitAndCommit(j, Expired, DeadlineReached, cfg.actor)
      else
        var (_, j) :- Observe(j, During, cfg);
        Done(Active, j)
  }

  function Retire(j: Job, cfg: Config): JobResult<State> {
    var state := j.live.state;
    if !NeedsCleanup(state) && state != Injecting then Done(state, j)
    else
      var (_, j) :- if state == CleaningUp then Done(state, j)
                    else TransitAndCommit(j, CleaningUp, CleanupRequired, cfg.actor);
      Cleanup(j, state == CancellationRequested || j.live.outcome == Some(CancelledPending), cfg)
  }

  function RunOnce(j: Job, cfg: Config): JobResult<State> {
    var j := Note(j, Entered);
    var (state, j) :- if j.live.state in {Planned, State.Preflight} then Prepare(j, cfg) else Done(j.live.state, j);
    var (_, j) :- if state == Injecting then Inject(j, cfg) else Done(state, j);
    var (_, j) :- Attend(j, cfg);
    Retire(j, cfg)
  }
}
