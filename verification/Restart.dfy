/** What a restart does with an experiment, state by state. */
module Restart {
  import opened Wrappers
  import opened Lifecycle
  import opened Rows
  import opened Machine
  import opened Protocol
  import opened Invariants
  import opened CoordinatorSpec
  import opened CoordinatorFollows
  import opened CleanupFollows
  import opened Safety
  import opened Convergence
  import opened SupervisorSpec
  import opened SupervisorFollows

  // Past the point where an injection could still be started.
  predicate BeyondInjection(s: State) { s !in {Planned, State.Preflight, Injecting} }

  lemma BeyondStep(c: Cell, c': Cell, limit: nat)
    requires Step(c, c', limit) && BeyondInjection(c.row.state)
    ensures BeyondInjection(c'.row.state) && Calls(c'.log, InjectCalled) == Calls(c.log, InjectCalled)
  {
    hide Follows, ContextAllowed, OutcomeAllowed, AttemptsAllowed, ObservationsAllowed;
  }

  lemma {:induction false} NoMoreInjections(p: Path, q: Path, limit: nat)
    requires ValidPath(q, limit) && Extends(p, q) && BeyondInjection(p.cell.row.state)
    ensures BeyondInjection(q.cell.row.state) && Calls(q.cell.log, InjectCalled) == Calls(p.cell.log, InjectCalled)
  {
    if p != q {
      NoMoreInjections(p, q.before, limit);
      BeyondStep(q.before.cell, q.cell, limit);
    }
  }

  // Whatever state a process left the experiment in, wherever it died, and whatever the ports
  // answer now: a restart never calls inject.
  lemma RestartNeverInjects(j: Job, cfg: Config)
    requires At(j, j.live.state, cfg, j.path)
    ensures Calls(ReconcileRow(j, cfg).state.Log(), InjectCalled) == Calls(j.Log(), InjectCalled)
  {
    hide CommitAllowed, ValidPath, Extends, Launch;
    if j.live.state == Injecting {
      StepOn(j, CleaningUp, RestartUncertainInjection, cfg.actor, cfg, j.path);
      var moved := TransitAndCommit(j, CleaningUp, RestartUncertainInjection, cfg.actor);
      hide TransitAndCommit;
      if moved.Done? { LaunchNeverInjects(moved.state, cfg, j.path); }
      else { assert moved.state.Log() == j.Log() by { DiesInPlace(j, cfg); } }
    } else if NeedsCleanup(j.live.state) {
      LaunchNeverInjects(j, cfg, j.path);
    }
  }

  lemma DiesInPlace(j: Job, cfg: Config)
    ensures TransitAndCommit(j, CleaningUp, RestartUncertainInjection, cfg.actor).state.Log() == j.Log()
  {
  }

  lemma LaunchNeverInjects(j: Job, cfg: Config, base: Path)
    requires At(j, j.live.state, cfg, base) && NeedsCleanup(j.live.state)
    ensures Calls(Launch(j, cfg).state.Log(), InjectCalled) == Calls(j.Log(), InjectCalled)
  {
    hide CommitAllowed, ValidPath, RunOnce;
    LaunchOn(j, cfg, base);
    if !j.live.kind.Unlisted? {
      RunOnceOn(j, cfg, j.path);
      NoMoreInjections(j.path, RunOnce(j, cfg).state.path, cfg.Limit());
    }
  }

  // The restart matrix: planned, preflight, active and verifying rows are left as they are, and so
  // are rows that are over; every other row is brought into cleanup, and a reconciliation that
  // returns has ended it or recorded one more failed attempt. A row of an unknown scenario raises.
  lemma RestartMatrix(j: Job, cfg: Config)
    requires At(j, j.live.state, cfg, j.path)
    ensures var r := ReconcileRow(j, cfg);
            if j.live.state in {Planned, State.Preflight, Active, Verifying} || Terminal(j.live.state) then r == Done([], j)
            else if j.live.kind.Unlisted? then r.Died? || (r.Raised? && r.error == ScenarioUnavailable && r.state.Clean())
            else
              && (r.Raised? ==>
                    && r.error == TransitionNotAllowed && r.state.Clean() && r.state.live.state == CleaningUp
                    && |r.state.live.attempts| == |j.live.attempts| + 1 >= cfg.Limit())
              && (r.Done? ==>
                    && r.state.Clean() && r.value == [r.state.live.state]
                    && (|| r.state.live.state in {Passed, Cancelled, OperatorAttention}
                        || (r.state.live.state == CleanupFailed
                            && |r.state.live.attempts| == |j.live.attempts| + 1 < cfg.Limit())))
  {
    hide CommitAllowed, ValidPath, Extends, Retire;
    if j.live.state == Injecting {
      StepOn(j, CleaningUp, RestartUncertainInjection, cfg.actor, cfg, j.path);
      var moved := TransitAndCommit(j, CleaningUp, RestartUncertainInjection, cfg.actor);
      hide TransitAndCommit;
      if moved.Done? { CleanupPass(moved.state, cfg, j.path); }
    } else if NeedsCleanup(j.live.state) {
      CleanupPass(j, cfg, j.path);
    }
  }

  lemma CleanupPass(j: Job, cfg: Config, base: Path)
    requires At(j, j.live.state, cfg, base) && NeedsCleanup(j.live.state)
    ensures Cleaned(RunOnce(j, cfg), cfg, base) && Progress(|j.live.attempts|, RunOnce(j, cfg), cfg)
  {
    hide CommitAllowed, ValidPath, Extends, Cleanup, Progress;
    var entered := Note(j, Entered);
    NoteOn(j, Entered, cfg, base);
    PathSound(entered.path, cfg.Limit());
    var state := j.live.state;
    var moved := if state == CleaningUp then Done(state, entered)
                 else TransitAndCommit(entered, CleaningUp, CleanupRequired, cfg.actor);
    if state != CleaningUp { StepOn(entered, CleaningUp, CleanupRequired, cfg.actor, cfg, base); }
    if moved.Done? {
      CancelledMentions(entered, moved.state, cfg, base);
      CleanupOn(moved.state, state == CancellationRequested || moved.state.live.outcome == Some(CancelledPending), cfg, base);
    }
    Reflexive(entered, cfg, base);
    RetireProgress(entered, cfg);
  }
}
