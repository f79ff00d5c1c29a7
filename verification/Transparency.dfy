/** Observing a website never changes what happens to an experiment. */
module Transparency {
  import opened Wrappers
  import opened Lifecycle
  import opened Rows
  import opened Machine
  import opened Evidence
  import opened CoordinatorSpec
  import Scenarios

  // Equal but for what was observed, when things were committed and how long the process lives.
  ghost predicate Agree(j: Job, k: Job) {
    && j.env.control == k.env.control && j.env.gate == k.env.gate
    && j.env.now == k.env.now && j.env.advances == k.env.advances
    && j.live.(observations := []) == k.live.(observations := [])
    && j.Log() == k.Log()
  }

  // Neither process died: the same end, with the same value or error, in agreeing jobs.
  ghost predicate Same<T(!new)>(r: JobResult<T>, q: JobResult<T>) {
    || r.Died? || q.Died?
    || (&& Agree(r.state, q.state)
        && ((r.Done? && q.Done? && r.value == q.value) || (r.Raised? && q.Raised? && r.error == q.error)))
  }

  lemma ObserveSame(j: Job, k: Job, phase: Phase, cfg: Config, other: Config)
    requires Agree(j, k)
    ensures Same(Observe(j, phase, cfg), Observe(k, phase, other))
  {
    hide NextSequence;
  }

  lemma StepSame(j: Job, k: Job, target: State, reason: Reason, actor: string)
    requires Agree(j, k)
    ensures Same(Transit(j, target, reason, actor), Transit(k, target, reason, actor))
    ensures Same(TransitAndCommit(j, target, reason, actor), TransitAndCommit(k, target, reason, actor))
  {
  }

  lemma PortsSame(j: Job, k: Job)
    requires Agree(j, k)
    ensures Same(Scenarios.Preflight(j), Scenarios.Preflight(k))
    ensures Same(Scenarios.Inject(j), Scenarios.Inject(k))
    ensures Same(Scenarios.VerifyActive(j), Scenarios.VerifyActive(k))
    ensures Same(AskGate(j), AskGate(k))
  {
    InjectCallSame(j, k);
    hide BaselineOk, EffectActive, Scenarios.Inject;
  }

  lemma InjectCallSame(j: Job, k: Job)
    requires Agree(j, k)
    ensures Same(Scenarios.Inject(j), Scenarios.Inject(k))
  {
    hide InjectionProved, InjectionContext;
  }

  lemma RestoreSame(j: Job, k: Job)
    requires Agree(j, k)
    ensures Same(Scenarios.Restore(j), Scenarios.Restore(k))
    ensures Same(Scenarios.GatedRestore(j), Scenarios.GatedRestore(k))
  {
    AgreeRows(j, k);
  }

  lemma CleanupPortsSame(j: Job, k: Job)
    requires Agree(j, k)
    ensures Same(Scenarios.Cleanup(j), Scenarios.Cleanup(k))
    ensures Same(Scenarios.VerifyCleanup(j), Scenarios.VerifyCleanup(k))
  {
    hide Scenarios.Restore, Scenarios.GatedRestore;
    AgreeRows(j, k);
    var spent, spent' := Spend(j, AtPort), Spend(k, AtPort);
    if spent.Done? && spent'.Done? {
      var called, called' := Note(spent.state, CleanupCalled), Note(spent'.state, CleanupCalled);
      RestoreSame(called, called');
      var verifying, verifying' := Note(spent.state, VerifyCalled), Note(spent'.state, VerifyCalled);
      RestoreSame(verifying, verifying');
      assert Agree(verifying, verifying');
    }
  }

  lemma AfterProbeSame(j: Job, k: Job, cfg: Config, other: Config)
    requires Agree(j, k) && cfg.actor == other.actor
    ensures Same(AfterProbe(j, cfg), AfterProbe(k, other))
  {
    hide Agree, AskGate, Observe, TransitAndCommit;
    PortsSame(j, k);
    var checked, checked' := AskGate(j), AskGate(k);
    if checked.Done? && checked'.Done? {
      StepSame(checked.state, checked'.state, Failed, PreflightRefused, cfg.actor);
      ObserveSame(checked.state, checked'.state, Before, cfg, other);
      var seen, seen' := Observe(checked.state, Before, cfg), Observe(checked'.state, Before, other);
      if seen.Done? && seen'.Done? { StepSame(seen.state, seen'.state, Injecting, PreflightPassed, cfg.actor); }
    }
  }

  lemma AgreeRows(j: Job, k: Job)
    requires Agree(j, k)
    ensures j.live.state == k.live.state && j.live.kind == k.live.kind && j.live.parameters == k.live.parameters
    ensures j.live.outcome == k.live.outcome && j.live.attempts == k.live.attempts && j.live.expiresAt == k.live.expiresAt
    ensures j.live.context == k.live.context
  {
    assert j.live.(observations := []).state == k.live.(observations := []).state;
  }

  lemma PrepareSame(j: Job, k: Job, cfg: Config, other: Config)
    requires Agree(j, k) && cfg.actor == other.actor
    ensures Same(Prepare(j, cfg), Prepare(k, other))
  {
    hide Agree, AfterProbe, TransitAndCommit, Scenarios.Preflight, Transit;
    AgreeRows(j, k);
    StepSame(j, k, State.Preflight, PreflightStarted, cfg.actor);
    var entered, entered' := EnterPreflight(j, cfg), EnterPreflight(k, other);
    if entered.Done? && entered'.Done? {
      AgreeRows(entered.state, entered'.state);
      PortsSame(entered.state, entered'.state);
      var probed := if HasPreflight(entered.state.live.kind) then Scenarios.Preflight(entered.state) else Done(true, entered.state);
      var probed' := if HasPreflight(entered'.state.live.kind) then Scenarios.Preflight(entered'.state) else Done(true, entered'.state);
      if probed.Done? && probed'.Done? {
        StepSame(probed.state, probed'.state, Failed, PreflightRefused, cfg.actor);
        AfterProbeSame(probed.state, probed'.state, cfg, other);
      }
    }
  }

  lemma ConfirmSame(j: Job, k: Job, cfg: Config, other: Config)
    requires Agree(j, k) && cfg.actor == other.actor
    ensures Same(Confirm(j, cfg), Confirm(k, other))
  {
    hide Agree, TransitAndCommit, Scenarios.VerifyActive;
    AgreeRows(j, k);
    PortsSame(j, k);
    var active, active' := Scenarios.VerifyActive(j), Scenarios.VerifyActive(k);
    StepSame(j, k, Active, InjectionVerified, cfg.actor);
    if active.Done? && active'.Done? { StepSame(active.state, active'.state, Active, InjectionVerified, cfg.actor); }
  }

  lemma SaveContextSame(j: Job, k: Job, context: set<Proof>)
    requires Agree(j, k)
    ensures Same(Commit(j.(live := j.live.(context := Some(context)))), Commit(k.(live := k.live.(context := Some(context)))))
  {
  }

  lemma InjectSame(j: Job, k: Job, cfg: Config, other: Config)
    requires Agree(j, k) && cfg.actor == other.actor
    ensures Same(Inject(j, cfg), Inject(k, other))
  {
    hide Agree, TransitAndCommit, Confirm, Scenarios.Inject;
    AgreeRows(j, k);
    PortsSame(j, k);
    var injected, injected' := Scenarios.Inject(j), Scenarios.Inject(k);
    if injected.Done? && injected'.Done? {
      SaveContextSame(injected.state, injected'.state, injected.value);
      var saved := Commit(injected.state.(live := injected.state.live.(context := Some(injected.value))));
      var saved' := Commit(injected'.state.(live := injected'.state.live.(context := Some(injected'.value))));
      if saved.Done? && saved'.Done? { ConfirmSame(saved.state, saved'.state, cfg, other); }
    }
    var tried, tried' := TryInject(j, cfg), TryInject(k, other);
    assert Same(tried, tried');
    if tried.Raised? && tried'.Raised? {
      AgreeRows(tried.state, tried'.state);
      StepSame(tried.state, tried'.state, CleaningUp, InjectionUncertain, cfg.actor);
    }
  }

  lemma RecordSame(j: Job, k: Job, attempt: Attempt)
    requires Agree(j, k) && attempt.number == NextAttempt(j.live.attempts)
    ensures Same(Commit(RecordAttempt(j, attempt)), Commit(RecordAttempt(k, attempt)))
  {
    AgreeRows(j, k);
  }

  lemma NoteSame(j: Job, k: Job, e: Event)
    requires Agree(j, k)
    ensures Agree(Note(j, e), Note(k, e)) && Agree(ReadClock(j).1, ReadClock(k).1) && ReadClock(j).0 == ReadClock(k).0
  {
  }

  lemma AttemptSame(j: Job, k: Job)
    requires Agree(j, k)
    ensures Same(AttemptCleanup(j), AttemptCleanup(k))
  {
    hide Agree, Scenarios.Cleanup, RecordAttempt, ReadClock, Commit;
    AgreeRows(j, k);
    NoteSame(j, k, Entered);
    var (started, a) := ReadClock(j);
    var (_, b) := ReadClock(k);
    CleanupPortsSame(a, b);
    var answered, answered' := Caught(Scenarios.Cleanup(a)), Caught(Scenarios.Cleanup(b));
    if answered.Done? && answered'.Done? {
      assert answered.value == answered'.value && Agree(answered.state, answered'.state);
      var ok := answered.value == Some(true);
      NoteSame(answered.state, answered'.state, CleanupAnswered(ok));
      var noted, noted' := Note(answered.state, CleanupAnswered(ok)), Note(answered'.state, CleanupAnswered(ok));
      NoteSame(noted, noted', Entered);
      CleanupKeepsAttempts(j);
      var (completed, c) := ReadClock(noted);
    var (_, d) := ReadClock(noted');
      RecordSame(c, d, Attempt(NextAttempt(j.live.attempts), ok, answered.value.Some?, started, completed));
    }
  }

  lemma CleanupKeepsAttempts(j: Job)
    ensures var answered := Caught(Scenarios.Cleanup(ReadClock(j).1));
            answered.Done? ==> forall e :: ReadClock(Note(answered.state, e)).1.live == j.live
  {
  }

  lemma FinishSame(j: Job, k: Job, cancelled: bool, verified: bool, cfg: Config, other: Config)
    requires Agree(j, k) && cfg.actor == other.actor
    ensures Same(Finish(j, cancelled, verified, cfg), Finish(k, cancelled, verified, other))
  {
    StepSame(Judged(j, cancelled, verified), Judged(k, cancelled, verified), Conclusion(cancelled, verified),
             VerificationEnded(verified), cfg.actor);
    hide TransitAndCommit;
  }

  lemma ConcludeSame(j: Job, k: Job, cancelled: bool, cfg: Config, other: Config)
    requires Agree(j, k) && cfg.actor == other.actor
    ensures Same(Conclude(j, cancelled, cfg), Conclude(k, cancelled, other))
  {
    hide Agree, Transit, Scenarios.VerifyCleanup, Observe, Finish;
    StepSame(j, k, Verifying, CleanupSucceeded, cfg.actor);
    var moved, moved' := Transit(j, Verifying, CleanupSucceeded, cfg.actor), Transit(k, Verifying, CleanupSucceeded, other.actor);
    if moved.Done? && moved'.Done? {
      CleanupPortsSame(moved.state, moved'.state);
      var answered, answered' := Caught(Scenarios.VerifyCleanup(moved.state)), Caught(Scenarios.VerifyCleanup(moved'.state));
      if answered.Done? && answered'.Done? {
        var verified := answered.value == Some(true);
        NoteSame(answered.state, answered'.state, VerifyAnswered(verified));
        var noted, noted' := Note(answered.state, VerifyAnswered(verified)), Note(answered'.state, VerifyAnswered(verified));
        ObserveSame(noted, noted', Phase.After, cfg, other);
        var seen, seen' := Observe(noted, Phase.After, cfg), Observe(noted', Phase.After, other);
        if seen.Done? && seen'.Done? { FinishSame(seen.state, seen'.state, cancelled, verified, cfg, other); }
      }
    }
  }

  lemma MarkSame(j: Job, k: Job, cancelled: bool)
    requires Agree(j, k)
    ensures Same(MarkCancelled(j, cancelled), MarkCancelled(k, cancelled))
  {
  }

  lemma GiveUpSame(j: Job, k: Job, cfg: Config, other: Config)
    requires Agree(j, k) && cfg.actor == other.actor
    ensures Same(GiveUp(j, cfg), GiveUp(k, other))
  {
  }

  lemma CleanupSame(j: Job, k: Job, cancelled: bool, cfg: Config, other: Config)
    requires Agree(j, k) && cfg == other.(observed := cfg.observed)
    ensures Same(Cleanup(j, cancelled, cfg), Cleanup(k, cancelled, other))
  {
    hide Agree, MarkCancelled, AttemptCleanup, Conclude, TransitAndCommit, GiveUp;
    MarkSame(j, k, cancelled);
    var marked, marked' := MarkCancelled(j, cancelled), MarkCancelled(k, cancelled);
    if marked.Done? && marked'.Done? {
      AttemptSame(marked.state, marked'.state);
      var tried, tried' := AttemptCleanup(marked.state), AttemptCleanup(marked'.state);
      if tried.Done? && tried'.Done? {
        ConcludeSame(tried.state, tried'.state, cancelled, cfg, other);
        GiveUpSame(tried.state, tried'.state, cfg, other);
        StepSame(tried.state, tried'.state, CleanupFailed, CleanupRefused, cfg.actor);
      }
    }
  }

  lemma AttendSame(j: Job, k: Job, cfg: Config, other: Config)
    requires Agree(j, k) && cfg.actor == other.actor
    ensures Same(Attend(j, cfg), Attend(k, other))
  {
    hide Agree, Observe, TransitAndCommit, ReadClock;
    AgreeRows(j, k);
    NoteSame(j, k, Entered);
    var (_, a) := ReadClock(j);
    var (_, b) := ReadClock(k);
    ClockKeepsRow(j);
    ClockKeepsRow(k);
    StepSame(a, b, Expired, DeadlineReached, cfg.actor);
    ObserveSame(a, b, During, cfg, other);
  }

  lemma ClockKeepsRow(j: Job)
    ensures ReadClock(j).1.live == j.live
  {
  }

  lemma RetireSame(j: Job, k: Job, cfg: Config, other: Config)
    requires Agree(j, k) && cfg == other.(observed := cfg.observed)
    ensures Same(Retire(j, cfg), Retire(k, other))
  {
    hide Agree, TransitAndCommit, Cleanup;
    AgreeRows(j, k);
    StepSame(j, k, CleaningUp, CleanupRequired, cfg.actor);
    var state := j.live.state;
    var entered := if state == CleaningUp then Done(state, j) else TransitAndCommit(j, CleaningUp, CleanupRequired, cfg.actor);
    var entered' := if state == CleaningUp then Done(state, k) else TransitAndCommit(k, CleaningUp, CleanupRequired, other.actor);
    if entered.Done? && entered'.Done? {
      AgreeRows(entered.state, entered'.state);
      CleanupSame(entered.state, entered'.state,
                  state == CancellationRequested || entered.state.live.outcome == Some(CancelledPending), cfg, other);
    }
  }

  // One pass with any observer, failing or not, against one with any other or none.
  lemma PassTransparent(j: Job, k: Job, cfg: Config, other: Config)
    requires Agree(j, k) && cfg == other.(observed := cfg.observed)
    ensures Same(RunOnce(j, cfg), RunOnce(k, other))
  {
    hide Agree, Prepare, Inject, Attend, Retire;
    NoteSame(j, k, Entered);
    var entered, entered' := Note(j, Entered), Note(k, Entered);
    AgreeRows(entered, entered');
    PrepareSame(entered, entered', cfg, other);
    var prepared := if j.live.state in {Planned, State.Preflight} then Prepare(entered, cfg) else Done(j.live.state, entered);
    var prepared' := if k.live.state in {Planned, State.Preflight} then Prepare(entered', other) else Done(k.live.state, entered');
    if prepared.Done? && prepared'.Done? {
      InjectSame(prepared.state, prepared'.state, cfg, other);
      var injected := if prepared.value == Injecting then Inject(prepared.state, cfg) else prepared;
      var injected' := if prepared'.value == Injecting then Inject(prepared'.state, other) else prepared';
      if injected.Done? && injected'.Done? {
        AttendSame(injected.state, injected'.state, cfg, other);
        var attended, attended' := Attend(injected.state, cfg), Attend(injected'.state, other);
        if attended.Done? && attended'.Done? { RetireSame(attended.state, attended'.state, cfg, other); }
      }
    }
  }

  /******* Any number of passes *******/

  // The envs of the two runs may differ in what the observer answers and in when processes could die.
  ghost predicate Alike(a: seq<Env>, b: seq<Env>) {
    |a| == |b| && forall i :: 0 <= i < |a| ==> a[i].(site := b[i].site, life := b[i].life) == b[i]
  }

  // Successive passes over one row, the pending row carried from one to the next as the session
  // carries it; a pass that raised is followed by the next one. None once a process died.
  function Passes(j: Job, envs: seq<Env>, cfg: Config): Option<Job> {
    if envs == [] then Some(j)
    else
      var earlier := Passes(j, envs[..|envs| - 1], cfg);
      if earlier.None? then None
      else
        var r := RunOnce(earlier.value.(env := envs[|envs| - 1]), cfg);
        if r.Died? then None else Some(r.state)
  }

  // Crash-free runs with the same scenario, preflight and clock answers end alike, whatever was
  // observed: same state, audit log, attempts, outcome and port calls.
  lemma {:induction false} ObservationTransparent(j: Job, a: seq<Env>, b: seq<Env>, cfg: Config, other: Config)
    requires Alike(a, b) && cfg == other.(observed := cfg.observed)
    ensures var q, q' := Passes(j, a, cfg), Passes(j, b, other);
            q.Some? && q'.Some? ==>
              && q.value.live.(observations := []) == q'.value.live.(observations := [])
              && q.value.Log() == q'.value.Log()
  {
    hide RunOnce;
    if a != [] {
      var n := |a| - 1;
      ObservationTransparent(j, a[..n], b[..n], cfg, other);
      var q, q' := Passes(j, a[..n], cfg), Passes(j, b[..n], other);
      if q.Some? && q'.Some? {
        assert a[n].(site := b[n].site, life := b[n].life) == b[n];
        PassTransparent(q.value.(env := a[n]), q'.value.(env := b[n]), cfg, other);
      }
    }
  }
}
