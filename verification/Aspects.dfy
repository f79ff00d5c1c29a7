/** Simple facts about a row that a pass of the coordinator leaves true, each at every point where
    the process may die. */
module Aspects {
  import opened Wrappers
  import opened Lifecycle
  import opened Rows
  import opened Machine
  import opened Evidence
  import opened Protocol
  import opened CoordinatorSpec
  import Scenarios

  datatype Aspect =
    | NeverAsked                          // no cancellation was ever requested
    | NeverMarked                         // nothing remembers one, and the row does not end as one
    | NeverVerifying                      // not in verifying
    | HeldBy(owner: Option<Instance>, until: int) // the lease is in this hand until then
    | Tried(attempts: seq<Attempt>)       // these cleanup attempts and no others
    | SignedBy(actor: string, askers: set<string>) // every move is the actor's, every abort an asker's

  predicate Shows(r: Row, a: Aspect) {
    match a
    case NeverAsked => !Mentions(r.audit, CancellationRequested)
    case NeverMarked => r.outcome != Some(CancelledPending) && r.state !in {CancellationRequested, Cancelled}
    case NeverVerifying => r.state != Verifying
    case HeldBy(owner, until) => r.owner == owner && r.leaseUntil == until
    case Tried(attempts) => r.attempts == attempts
    case SignedBy(actor, askers) => forall entry <- r.audit :: Signed(entry, actor, askers)
  }

  predicate Signed(entry: Transition, actor: string, askers: set<string>) {
    match entry.reason
    case Scheduled => true
    case AbortRequested => entry.actor in askers
    case _ => entry.actor == actor
  }

  predicate Kept(j: Job, a: Aspect) { Shows(j.Saved(), a) && Shows(j.live, a) }

  // The moves that keep it.
  predicate Permits(a: Aspect, target: State, reason: Reason, actor: string) {
    match a
    case NeverAsked => target != CancellationRequested
    case NeverMarked => target !in {CancellationRequested, Cancelled}
    case NeverVerifying => target != Verifying
    case SignedBy(signer, askers) => if reason == AbortRequested then actor in askers else reason == Scheduled || actor == signer
    case _ => true
  }

  // What the configuration and the kind of cleanup must be for it.
  predicate Suits(a: Aspect, cfg: Config, cancelled: bool) {
    && (a.NeverVerifying? ==> !cfg.observed) && (a.NeverMarked? ==> !cancelled)
    && (a.SignedBy? ==> a.actor == cfg.actor)
  }

  lemma MoveShows(r: Row, r': Row, target: State, entry: Transition, a: Aspect)
    requires Shows(r, a) && Permits(a, target, entry.reason, entry.actor) && entry.to == target
    requires r' == r.(state := target, revision := r'.revision, audit := r.audit + [entry])
    ensures Shows(r', a)
  {
    assert r'.audit[..|r'.audit| - 1] == r.audit;
  }

  lemma StepKept(j: Job, target: State, reason: Reason, actor: string, a: Aspect)
    requires Kept(j, a) && Permits(a, target, reason, actor)
    ensures Kept(Transit(j, target, reason, actor).state, a) && Kept(TransitAndCommit(j, target, reason, actor).state, a)
  {
    var r := Transit(j, target, reason, actor);
    if r.Done? { MoveShows(j.live, r.state.live, target, r.state.live.audit[|j.live.audit|], a); }
    hide Shows, CasTransition;
  }

  // A change that touches nothing the aspects speak of.
  predicate Alike(r: Row, r': Row) {
    && r'.audit == r.audit && r'.outcome == r.outcome && r'.state == r.state
    && r'.owner == r.owner && r'.leaseUntil == r.leaseUntil
  }

  lemma AlikeShows(r: Row, r': Row, a: Aspect)
    requires Alike(r, r')
    ensures !a.Tried? ==> (Shows(r, a) <==> Shows(r', a))
    ensures r'.attempts == r.attempts ==> (Shows(r, a) <==> Shows(r', a))
  {
  }

  lemma ObserveKept(j: Job, phase: Phase, cfg: Config, a: Aspect)
    requires Kept(j, a)
    ensures Kept(Observe(j, phase, cfg).state, a)
  {
    if cfg.observed {
      var asked := AskSite(j);
      if asked.Done? { AlikeShows(j.live, Sighted(asked.state, phase, asked.value).live, a); }
    }
    hide Shows, NextSequence;
  }

  // A port call changes neither what is durable nor what is pending.
  lemma PortsTouchNoRow(j: Job)
    ensures forall e :: Note(j, e).Saved() == j.Saved() && Note(j, e).live == j.live
    ensures AskGate(j).state.Saved() == j.Saved() && AskGate(j).state.live == j.live
    ensures Scenarios.Preflight(j).state.Saved() == j.Saved() && Scenarios.Preflight(j).state.live == j.live
    ensures Scenarios.Cleanup(j).state.Saved() == j.Saved() && Scenarios.Cleanup(j).state.live == j.live
  {
  }

  lemma VerifyTouchesNoRow(j: Job)
    ensures Scenarios.VerifyCleanup(j).state.Saved() == j.Saved() && Scenarios.VerifyCleanup(j).state.live == j.live
  {
  }

  lemma PortsKept(j: Job, a: Aspect)
    requires Kept(j, a)
    ensures Kept(Scenarios.Preflight(j).state, a) && Kept(Scenarios.Cleanup(j).state, a) && Kept(Scenarios.VerifyCleanup(j).state, a)
    ensures Kept(AskGate(j).state, a) && forall e :: Kept(Note(j, e), a)
  {
    PortsTouchNoRow(j);
    VerifyTouchesNoRow(j);
    hide Shows, Note, Scenarios.Preflight, Scenarios.Cleanup, Scenarios.VerifyCleanup, AskGate;
  }

  lemma GatedKept(j: Job, cfg: Config, a: Aspect)
    requires Kept(j, a) && Suits(a, cfg, false)
    ensures Kept(AfterProbe(j, cfg).state, a)
  {
    hide AskGate, Observe, TransitAndCommit, Kept;
    PortsKept(j, a);
    var checked := AskGate(j);
    StepKept(checked.state, Failed, PreflightRefused, cfg.actor, a);
    ObserveKept(checked.state, Before, cfg, a);
    StepKept(Observe(checked.state, Before, cfg).state, Injecting, PreflightPassed, cfg.actor, a);
  }

  lemma PrepareKept(j: Job, cfg: Config, a: Aspect)
    requires Kept(j, a) && Suits(a, cfg, false)
    ensures Kept(Prepare(j, cfg).state, a)
  {
    hide AfterProbe, TransitAndCommit, Kept, Scenarios.Preflight, Transit;
    StepKept(j, State.Preflight, PreflightStarted, cfg.actor, a);
    var k := EnterPreflight(j, cfg).state;
    PortsKept(k, a);
    var probed := if HasPreflight(k.live.kind) then Scenarios.Preflight(k) else Done(true, k);
    StepKept(probed.state, Failed, PreflightRefused, cfg.actor, a);
    GatedKept(probed.state, cfg, a);
  }

  lemma ScenarioInjectKept(j: Job, a: Aspect)
    requires Kept(j, a)
    ensures Kept(Scenarios.Inject(j).state, a) && Kept(Scenarios.VerifyActive(j).state, a)
  {
    hide Shows;
  }

  lemma SaveContextKept(j: Job, context: set<Proof>, a: Aspect)
    requires Kept(j, a)
    ensures Kept(Commit(j.(live := j.live.(context := Some(context)))).state, a)
  {
    AlikeShows(j.live, j.live.(context := Some(context)), a);
    hide Shows;
  }

  lemma InjectKept(j: Job, cfg: Config, a: Aspect)
    requires Kept(j, a) && Suits(a, cfg, false)
    ensures Kept(Inject(j, cfg).state, a)
  {
    hide Kept, Scenarios.Inject, Scenarios.VerifyActive, Commit, TransitAndCommit;
    ScenarioInjectKept(j, a);
    var injected := Scenarios.Inject(j);
    if injected.Done? {
      SaveContextKept(injected.state, injected.value, a);
      var saved := Commit(injected.state.(live := injected.state.live.(context := Some(injected.value))));
      ScenarioInjectKept(saved.state, a);
      var confirmed := if HasVerifyActive(saved.state.live.kind) then Scenarios.VerifyActive(saved.state) else Done(true, saved.state);
      StepKept(confirmed.state, Active, InjectionVerified, cfg.actor, a);
    }
    assert Kept(TryInject(j, cfg).state, a);
    StepKept(TryInject(j, cfg).state, CleaningUp, InjectionUncertain, cfg.actor, a);
  }

  lemma AttemptKept(j: Job, a: Aspect)
    requires Kept(j, a) && !a.Tried?
    ensures Kept(AttemptCleanup(j).state, a)
  {
    hide Scenarios.Cleanup, Shows, NextAttempt, RecordAttempt, Commit;
    var clock := ReadClock(j).1;
    PortsKept(clock, a);
    var answered := Caught(Scenarios.Cleanup(clock));
    if answered.Done? {
      var ok := answered.value == Some(true);
      PortsKept(answered.state, a);
      var completed := ReadClock(Note(answered.state, CleanupAnswered(ok)));
      RecordKept(completed.1, Attempt(NextAttempt(j.live.attempts), ok, answered.value.Some?, ReadClock(j).0, completed.0), a);
    }
  }

  lemma RecordKept(j: Job, attempt: Attempt, a: Aspect)
    requires Kept(j, a) && !a.Tried?
    ensures Kept(Commit(RecordAttempt(j, attempt)).state, a)
  {
    AlikeShows(j.live, j.live.(attempts := j.live.attempts + [attempt]), a);
    hide Shows;
  }

  lemma FinishKept(j: Job, cancelled: bool, verified: bool, cfg: Config, a: Aspect)
    requires Kept(j, a) && Suits(a, cfg, cancelled)
    ensures Kept(Finish(j, cancelled, verified, cfg).state, a)
  {
    var judged := Judged(j, cancelled, verified);
    assert Shows(judged.live, a);
    StepKept(judged, Conclusion(cancelled, verified), VerificationEnded(verified), cfg.actor, a);
  }

  // How a call leaves the row: what a dead process had pending is lost and does not matter.
  predicate Left<T>(r: JobResult<T>, a: Aspect) {
    Shows(r.state.Saved(), a) && (!r.Died? ==> Shows(r.state.live, a))
  }

  lemma ConcludeKept(j: Job, cancelled: bool, cfg: Config, a: Aspect)
    requires Kept(j, a) && Suits(a, cfg, cancelled)
    ensures Left(Conclude(j, cancelled, cfg), a)
  {
    if a.NeverVerifying? {
      ConcludeUnobserved(j, cancelled, cfg);
    } else {
      ConcludeStepwise(j, cancelled, cfg, a);
      hide Conclude, Shows;
    }
  }

  lemma ConcludeStepwise(j: Job, cancelled: bool, cfg: Config, a: Aspect)
    requires Kept(j, a) && Suits(a, cfg, cancelled) && !a.NeverVerifying?
    ensures Kept(Conclude(j, cancelled, cfg).state, a)
  {
    assert Permits(a, Verifying, CleanupSucceeded, cfg.actor);
    hide Kept, Suits, Scenarios.VerifyCleanup, Observe, Transit, Finish;
    StepKept(j, Verifying, CleanupSucceeded, cfg.actor, a);
    var moved := Transit(j, Verifying, CleanupSucceeded, cfg.actor);
    if moved.Done? {
      PortsKept(moved.state, a);
      var answered := Caught(Scenarios.VerifyCleanup(moved.state));
      if answered.Done? {
        var verified := answered.value == Some(true);
        PortsKept(answered.state, a);
        var noted := Note(answered.state, VerifyAnswered(verified));
        ObserveKept(noted, Phase.After, cfg, a);
        FinishKept(Observe(noted, Phase.After, cfg).state, cancelled, verified, cfg, a);
      }
    }
  }

  // Without an observer the move to verifying is committed only together with the verdict.
  lemma ConcludeUnobserved(j: Job, cancelled: bool, cfg: Config)
    requires Kept(j, NeverVerifying) && !cfg.observed
    ensures Left(Conclude(j, cancelled, cfg), NeverVerifying)
  {
    var moved := Transit(j, Verifying, CleanupSucceeded, cfg.actor);
    if moved.Done? {
      VerifyTouchesNoRow(moved.state);
      hide Scenarios.VerifyCleanup;
    }
  }

  lemma CleanupMarkedKept(j: Job, cancelled: bool, cfg: Config, a: Aspect)
    requires Kept(j, a) && !a.Tried? && Suits(a, cfg, cancelled)
    ensures Left(CleanupMarked(j, cancelled, cfg), a)
  {
    hide AttemptCleanup, Conclude, TransitAndCommit, GiveUp, Shows;
    AttemptKept(j, a);
    var tried := AttemptCleanup(j);
    ConcludeKept(tried.state, cancelled, cfg, a);
    StepKept(tried.state, CleanupFailed, CleanupRefused, cfg.actor, a);
    GiveUpKept(tried.state, cfg, a);
  }

  lemma GiveUpKept(j: Job, cfg: Config, a: Aspect)
    requires Kept(j, a) && Suits(a, cfg, false)
    ensures Kept(GiveUp(j, cfg).state, a)
  {
    StepKept(j, OperatorAttention, CleanupRefused, cfg.actor, a);
    var moved := Transit(j, OperatorAttention, CleanupRefused, cfg.actor);
    if moved.Done? { AlikeShows(moved.state.live, moved.state.live.(attention := Some(AttemptsExhausted)), a); }
    hide Shows, Transit;
  }

  lemma CleanupKept(j: Job, cancelled: bool, cfg: Config, a: Aspect)
    requires Kept(j, a) && !a.Tried? && Suits(a, cfg, cancelled)
    ensures Left(Cleanup(j, cancelled, cfg), a)
  {
    hide CleanupMarked, Mentions;
    var marked := MarkCancelled(j, cancelled);
    assert Kept(marked.state, a);
    CleanupMarkedKept(marked.state, cancelled, cfg, a);
  }

  lemma RetireKept(j: Job, cfg: Config, a: Aspect)
    requires Kept(j, a) && !a.Tried? && Suits(a, cfg, false)
    ensures Left(Retire(j, cfg), a)
  {
    hide Cleanup, TransitAndCommit, Mentions;
    StepKept(j, CleaningUp, CleanupRequired, cfg.actor, a);
    var state := j.live.state;
    var entered := if state == CleaningUp then Done(state, j)
                   else TransitAndCommit(j, CleaningUp, CleanupRequired, cfg.actor);
    CleanupKept(entered.state, state == CancellationRequested || entered.state.live.outcome == Some(CancelledPending), cfg, a);
  }

  lemma AttendKept(j: Job, cfg: Config, a: Aspect)
    requires Kept(j, a) && Suits(a, cfg, false)
    ensures Kept(Attend(j, cfg).state, a)
  {
    hide Observe, TransitAndCommit, Shows;
    var clock := ReadClock(j);
    StepKept(clock.1, Expired, DeadlineReached, cfg.actor, a);
    ObserveKept(clock.1, During, cfg, a);
  }

  // The whole pass.
  lemma RunOnceKept(j: Job, cfg: Config, a: Aspect)
    requires Kept(j, a) && !a.Tried? && Suits(a, cfg, false)
    ensures Left(RunOnce(j, cfg), a)
  {
    hide Prepare, Inject, Retire, Attend, Shows, Suits;
    var entered := Note(j, Entered);
    PortsKept(j, a);
    PrepareKept(entered, cfg, a);
    var prepared := if j.live.state in {Planned, State.Preflight} then Prepare(entered, cfg) else Done(j.live.state, entered);
    InjectKept(prepared.state, cfg, a);
    var injected := if prepared.Done? && prepared.value == Injecting then Inject(prepared.state, cfg) else prepared;
    AttendKept(injected.state, cfg, a);
    RetireKept(Attend(injected.state, cfg).state, cfg, a);
  }
}
