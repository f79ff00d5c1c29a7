/** How each step of the coordinator ends, told by the answers it gets: for a process that lives
    through the step, every outcome exactly. */
module StepLaws {
  import opened Wrappers
  import opened Lifecycle
  import opened Rows
  import opened Machine
  import opened Evidence
  import opened CoordinatorSpec
  import Scenarios

  // The k-th control answer is a reading; the gate answers at all.
  predicate Heard(env: Env, k: nat) { k < |env.control| && env.control[k].Reply? }

  predicate GateHeard(env: Env) { env.gate != [] && env.gate[0].Verdict? }

  predicate Probes(kind: Kind) { kind.Custom? ==> kind.probes }

  predicate Confirms(kind: Kind) { kind.Custom? ==> kind.confirms }

  // The scenario's own preflight lets the experiment begin.
  predicate LetsBegin(j: Job) {
    Probes(j.live.kind) ==> Heard(j.env, 0) && BaselineOk(j.live.kind, j.live.parameters, j.env.control[0].reading)
  }

  /******* Prepare *******/

  // Parameters first, then the scenario's own preflight, then the gate; what refuses ends the
  // experiment as failed, what does not answer raises, and the gate is not asked once it is refused.
  lemma PrepareExactly(j: Job, cfg: Config)
    requires j.live.state in {Planned, State.Preflight} && j.env.life >= 5
    ensures var r, accepted := Prepare(j, cfg), ParametersAccepted(j.live.kind, j.live.parameters);
            && !r.Died?
            && (r.Done? && r.value == Injecting <==> accepted && LetsBegin(j) && GateHeard(j.env) && j.env.gate[0].ok)
            && (r.Done? && r.value == Failed <==>
                  accepted && if LetsBegin(j) then GateHeard(j.env) && !j.env.gate[0].ok else Heard(j.env, 0))
            && (r.Raised? <==>
                  !accepted || (LetsBegin(j) && !GateHeard(j.env)) || (Probes(j.live.kind) && !Heard(j.env, 0)))
            && (r.Raised? ==> r.error == if accepted then PortRaised else InvalidParameters)
            && (!accepted || !LetsBegin(j) ==> r.state.env.gate == j.env.gate)
  {
    hide ParametersAccepted, BaselineOk, AfterProbe, TransitAndCommit;
    var k := EnterPreflight(j, cfg).state;
    assert EnterPreflight(j, cfg).Done? && k.live == j.live.(state := State.Preflight, revision := k.live.revision, audit := k.live.audit);
    assert k.env == j.env;
    var probed := if HasPreflight(k.live.kind) then Scenarios.Preflight(k) else Done(true, k);
    ProbeExactly(k);
    if probed.Done? {
      FailPaid(probed.state, cfg);
      GateExactly(probed.state, cfg);
    }
  }

  lemma ProbeExactly(j: Job)
    requires j.env.life >= 5
    ensures var r := Scenarios.Preflight(j);
            && r.state.live == j.live && r.state.env.gate == j.env.gate
            && (if Heard(j.env, 0)
                then r.Done? && r.value == BaselineOk(j.live.kind, j.live.parameters, j.env.control[0].reading)
                     && r.state.env.life == j.env.life - 1
                else r.Raised? && r.error == PortRaised)
  {
    hide BaselineOk;
  }

  lemma FailPaid(j: Job, cfg: Config)
    requires j.live.state == State.Preflight && j.env.life >= 1
    ensures var r := TransitAndCommit(j, Failed, PreflightRefused, cfg.actor);
            r.Done? && r.value == Failed && r.state.env.gate == j.env.gate
  {
  }

  lemma GateExactly(j: Job, cfg: Config)
    requires j.live.state == State.Preflight && j.env.life >= 4
    ensures var r := AfterProbe(j, cfg);
            if !GateHeard(j.env) then r.Raised? && r.error == PortRaised
            else r.Done? && r.value == if j.env.gate[0].ok then Injecting else Failed
  {
    hide NextSequence;
  }

  /******* Inject *******/

  predicate Proved(j: Job) {
    && ParametersAccepted(j.live.kind, j.live.parameters)
    && Heard(j.env, 0) && InjectionProved(j.live.kind, j.env.control[0].reading)
  }

  predicate Confirmed(j: Job) {
    Confirms(j.live.kind) ==> Heard(j.env, 1) && EffectActive(j.live.kind, j.env.control[1].reading)
  }

  // The context is durable as soon as the effect is proved, before anybody asks whether it is seen,
  // and wherever the process dies after that.
  lemma ContextSavedFirst(j: Job, cfg: Config)
    requires j.Clean() && j.live.state == Injecting
    ensures Inject(j, cfg).state.Saved().context ==
            if Proved(j) && j.env.life >= 3 then Some(InjectionContext(j.live.kind)) else j.live.context
  {
    hide ParametersAccepted, InjectionProved, EffectActive, InjectionContext, Confirm;
    InjectedExactly(j);
    var injected := Scenarios.Inject(j);
    hide Scenarios.Inject;
    if ParametersAccepted(j.live.kind, j.live.parameters) && injected.Done? {
      var saved := Commit(injected.state.(live := injected.state.live.(context := Some(injected.value))));
      if saved.Done? { ConfirmKeepsContext(saved.state, cfg); }
    }
    var tried := TryInject(j, cfg);
    if tried.Raised? { StepKeepsContext(tried.state, CleaningUp, InjectionUncertain, cfg.actor); }
    hide TransitAndCommit;
  }

  lemma InjectedExactly(j: Job)
    requires j.Clean()
    ensures var r := Scenarios.Inject(j);
            && r.state.live == j.live && r.state.Saved() == j.Saved()
            && (r.Died? <==> j.env.life < 2)
            && (r.Done? <==> j.env.life >= 2 && Heard(j.env, 0) && InjectionProved(j.live.kind, j.env.control[0].reading))
            && (r.Done? ==> r.value == InjectionContext(j.live.kind) && r.state.env.control == j.env.control[1..])
            && (!r.Died? ==> r.state.env.life == j.env.life - 2)
  {
    hide InjectionProved, InjectionContext;
  }

  lemma StepKeepsContext(j: Job, target: State, reason: Reason, actor: string)
    requires j.live.context == j.Saved().context
    ensures TransitAndCommit(j, target, reason, actor).state.Saved().context == j.Saved().context
  {
  }

  lemma ConfirmKeepsContext(j: Job, cfg: Config)
    requires j.live.context == j.Saved().context
    ensures var r := Confirm(j, cfg);
            r.state.Saved().context == j.Saved().context && (r.Raised? ==> r.state.live.context == j.live.context)
  {
    hide EffectActive, TransitAndCommit;
    var seen := Scenarios.VerifyActive(j);
    assert seen.state.live == j.live && seen.state.Saved() == j.Saved();
    StepKeepsContext(j, Active, InjectionVerified, cfg.actor);
    StepKeepsContext(seen.state, Active, InjectionVerified, cfg.actor);
    NoRaise(j, cfg);
    NoRaise(seen.state, cfg);
  }

  lemma NoRaise(j: Job, cfg: Config)
    ensures var r := TransitAndCommit(j, Active, InjectionVerified, cfg.actor); r.Raised? ==> r.state == j
  {
  }

  // Active exactly if the effect was proved and then seen; anything else goes into cleanup.
  lemma InjectExactly(j: Job, cfg: Config)
    requires j.Clean() && j.live.state == Injecting && j.env.life >= 5
    ensures var r := Inject(j, cfg);
            r.Done? && r.state.Clean() && r.value == r.state.live.state == if Proved(j) && Confirmed(j) then Active else CleaningUp
  {
    hide ParametersAccepted, InjectionProved, EffectActive, InjectionContext;
    InjectedExactly(j);
    var injected := Scenarios.Inject(j);
    hide Scenarios.Inject;
    if ParametersAccepted(j.live.kind, j.live.parameters) && injected.Done? {
      var saved := Commit(injected.state.(live := injected.state.live.(context := Some(injected.value))));
      ConfirmExactly(saved.state, cfg);
    }
    hide Confirm;
  }

  lemma ConfirmExactly(j: Job, cfg: Config)
    requires j.Clean() && j.live.state == Injecting && j.env.life >= 2
    ensures var r := Confirm(j, cfg);
            if Confirms(j.live.kind) ==> Heard(j.env, 0) && EffectActive(j.live.kind, j.env.control[0].reading)
            then r.Done? && r.state.Clean() && r.value == r.state.live.state == Active
            else r.Raised? && r.state.Clean() && r.state.live.state == Injecting && r.state.env.life >= 1
  {
    hide EffectActive;
  }

  /******* Cleanup *******/

  function NextAdvance(env: Env): nat { if env.advances == [] then 0 else env.advances[0] }

  // The attempt as it is recorded: numbered next, successful exactly if the ownership entry was there
  // and the answer shows the effect gone, answered unless the port raised, between two looks at the
  // clock.
  lemma AttemptExactly(j: Job)
    requires j.Clean() && AttemptsNumbered(j.live.attempts) && j.env.life >= 3
    ensures var r := AttemptCleanup(j);
            var owned, heard, number := Owned(j.live.kind, j.live.context), Heard(j.env, 0), |j.live.attempts| + 1;
            var ok := owned && heard && EffectGone(j.live.kind, j.env.control[0].reading);
            && r.Done? && r.value == (number, ok) && r.state.Clean()
            && r.state.live == j.live.(attempts := j.live.attempts + [
                 Attempt(number, ok, !owned || heard, j.env.now, j.env.now + NextAdvance(j.env))])
  {
    hide EffectGone, Owned, Scenarios.Cleanup, MaxAttempt;
    CleanedExactly(ReadClock(j).1);
    NumberedMax(j.live.attempts);
  }

  // Recorded at most once: a number already in the table loses everything that was pending.
  lemma RecordExactly(j: Job, attempt: Attempt)
    ensures var k := RecordAttempt(j, attempt);
            && k.path == j.path && k.env == j.env
            && ((exists a <- j.live.attempts :: a.number == attempt.number) ==> k.live == j.path.cell.row)
            && ((forall a <- j.live.attempts :: a.number != attempt.number) ==>
                  k.live == j.live.(attempts := j.live.attempts + [attempt]))
  {
  }

  lemma CleanedExactly(j: Job)
    requires j.env.life >= 2
    ensures var r := Scenarios.Cleanup(j);
            var owned, heard := Owned(j.live.kind, j.live.context), Heard(j.env, 0);
            && r.state.live == j.live && r.state.Saved() == j.Saved() && r.state.env.life >= j.env.life - 2
            && r.state.env.now == j.env.now && r.state.env.advances == j.env.advances
            && (if !owned then r.Done? && !r.value
                else if heard then r.Done? && r.value == EffectGone(j.live.kind, j.env.control[0].reading)
                else r.Raised?)
  {
    hide EffectGone, Owned;
  }

  // Verified: the answer to the verification shows the effect gone. Disk asks only with its ownership
  // entry; a port that raises verifies nothing.
  predicate VerifiedGone(j: Job) {
    && (j.live.kind == DiskPressure ==> Owned(j.live.kind, j.live.context))
    && Heard(j.env, 0) && EffectGone(j.live.kind, j.env.control[0].reading)
  }

  lemma VerifiedExactly(j: Job)
    requires j.env.life >= 2
    ensures var r := Scenarios.VerifyCleanup(j);
            && !r.Died? && (r.Done? && r.value <==> VerifiedGone(j)) && r.state.env.life >= j.env.life - 2
            && r.state.live == j.live && r.state.Saved() == j.Saved()
  {
    hide EffectGone, Owned;
  }

  // The verdict of a successful cleanup.
  lemma VerdictExactly(j: Job, cancelled: bool, cfg: Config)
    requires j.Clean() && j.live.state == CleaningUp && j.env.life >= 5
    ensures var r := Conclude(j, cancelled, cfg);
            && r.Done? && r.state.Clean() && r.value == r.state.live.state
            && r.value == (if !VerifiedGone(j) then OperatorAttention else if cancelled then Cancelled else Passed)
            && r.state.live.outcome == Some(Final(r.value))
            && r.state.live.attention == if VerifiedGone(j) then j.live.attention else Some(VerificationFailed)
  {
    hide Scenarios.VerifyCleanup, NextSequence, Observe, EffectGone, Owned;
    var moved := Transit(j, Verifying, CleanupSucceeded, cfg.actor).state;
    VerifiedExactly(moved);
    assert VerifiedGone(moved) == VerifiedGone(j);
    var answered := Caught(Scenarios.VerifyCleanup(moved));
    var noted := Note(answered.state, VerifyAnswered(VerifiedGone(j)));
    ObservedPaid(noted, Phase.After, cfg);
    FinishExactly(Observe(noted, Phase.After, cfg).state, cancelled, VerifiedGone(j), cfg);
    hide Finish, VerifiedGone;
  }

  lemma ObservedPaid(j: Job, phase: Phase, cfg: Config)
    requires j.env.life >= 2
    ensures var r := Observe(j, phase, cfg);
            && r.Done? && r.state.env.life >= j.env.life - 2
            && r.state.live == j.live.(observations := r.state.live.observations)
  {
    hide NextSequence;
  }

  lemma FinishExactly(j: Job, cancelled: bool, verified: bool, cfg: Config)
    requires j.live.state == Verifying && j.env.life >= 1
    ensures var r := Finish(j, cancelled, verified, cfg);
            && r.Done? && r.state.Clean() && r.value == r.state.live.state
            && r.value == (if !verified then OperatorAttention else if cancelled then Cancelled else Passed)
            && r.state.live.outcome == Some(Final(r.value))
            && r.state.live.attention == if verified then j.live.attention else Some(VerificationFailed)
  {
  }
}
