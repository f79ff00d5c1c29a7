/** Injection, cleanup and the whole pass of the coordinator follow the protocol. */
module CleanupFollows {
  import opened Wrappers
  import opened Lifecycle
  import opened Rows
  import opened Machine
  import opened Evidence
  import opened Protocol
  import opened Invariants
  import opened CoordinatorSpec
  import opened CoordinatorFollows
  import Scenarios

  // Clean, in the state a pass has reached.
  ghost predicate At(j: Job, state: State, cfg: Config, base: Path) {
    On(j, cfg, base) && j.Clean() && j.live.state == state
  }

  /******* Inject *******/

  lemma ScenarioInjectOn(j: Job, cfg: Config, base: Path)
    requires At(j, Injecting, cfg, base) && Cleared(j.live.kind, j.Log())
    ensures var r := Scenarios.Inject(j);
            At(r.state, Injecting, cfg, base) && r.state.live == j.live &&
            (r.Done? ==> LatestProof(r.state.Log()) && Owned(j.live.kind, Some(r.value)))
  {
    hide CommitAllowed, ValidPath, Extends;
    var spent := Spend(j, AtPort);
    if spent.Done? {
      NoteOn(spent.state, InjectCalled, cfg, base);
      var asked := AskControl(Note(spent.state, InjectCalled));
      if asked.Done? && InjectionProved(j.live.kind, asked.value) { NoteOn(asked.state, InjectProved(asked.value), cfg, base); }
    }
  }

  lemma SaveContextOn(j: Job, context: set<Proof>, cfg: Config, base: Path)
    requires At(j, Injecting, cfg, base) && LatestProof(j.Log()) && Owned(j.live.kind, Some(context))
    ensures var r := Commit(j.(live := j.live.(context := Some(context))));
            On(r.state, cfg, base) && !r.Raised? &&
            (r.Done? ==> At(r.state, Injecting, cfg, base) && r.state.live.kind == j.live.kind &&
                         r.state.live.context == Some(context))
  {
    CleanCommittable(j, cfg, base);
    var k := j.(live := j.live.(context := Some(context)));
    SameLogFollows(j.Saved(), j.live, k.live);
    hide Follows;
    CommitOn(k, cfg, base);
  }

  lemma TryInjectOn(j: Job, cfg: Config, base: Path)
    requires At(j, Injecting, cfg, base) && Cleared(j.live.kind, j.Log())
    ensures var r := TryInject(j, cfg);
            On(r.state, cfg, base) &&
            (r.Done? ==> r.value == Active && At(r.state, Active, cfg, base)) &&
            (r.Raised? ==> At(r.state, Injecting, cfg, base))
  {
    hide CommitAllowed, ValidPath, Extends;
    if ParametersAccepted(j.live.kind, j.live.parameters) {
      ScenarioInjectOn(j, cfg, base);
      var injected := Scenarios.Inject(j);
      if injected.Done? {
        SaveContextOn(injected.state, injected.value, cfg, base);
        var saved := Commit(injected.state.(live := injected.state.live.(context := Some(injected.value))));
        if saved.Done? { ConfirmOn(saved.state, cfg, base); }
      }
    }
  }

  lemma ConfirmOn(j: Job, cfg: Config, base: Path)
    requires At(j, Injecting, cfg, base) && j.live.context.Some? && Owned(j.live.kind, j.live.context)
    ensures var r := Confirm(j, cfg);
            On(r.state, cfg, base) &&
            (r.Done? ==> r.value == Active && At(r.state, Active, cfg, base)) &&
            (r.Raised? ==> At(r.state, Injecting, cfg, base))
  {
    hide CommitAllowed, ValidPath, Extends;
    var confirmed := if HasVerifyActive(j.live.kind) then Scenarios.VerifyActive(j) else Done(true, j);
    assert confirmed.state.path == j.path && confirmed.state.live == j.live;
    if confirmed.Done? && confirmed.value { StepOn(confirmed.state, Active, InjectionVerified, cfg.actor, cfg, base); }
  }

  lemma InjectOn(j: Job, cfg: Config, base: Path)
    requires At(j, Injecting, cfg, base) && Cleared(j.live.kind, j.Log())
    ensures var r := Inject(j, cfg);
            On(r.state, cfg, base) && !r.Raised? && (r.Done? ==> r.value in {Active, CleaningUp} && At(r.state, r.value, cfg, base))
  {
    hide CommitAllowed, ValidPath, Extends;
    TryInjectOn(j, cfg, base);
    var tried := TryInject(j, cfg);
    if tried.Raised? { StepOn(tried.state, CleaningUp, InjectionUncertain, cfg.actor, cfg, base); }
  }

  /******* Cleanup *******/

  lemma RestoreOn(j: Job, call: Event, cfg: Config, base: Path)
    requires On(j, cfg, base) && j.Saved().state == CleaningUp && call in {CleanupCalled, VerifyCalled}
    requires Latest(j.Log(), call) && Owned(j.live.kind, j.live.context)
    requires j.live.kind == j.Saved().kind && j.live.context == j.Saved().context
    ensures var r := Scenarios.Restore(j);
            On(r.state, cfg, base) && r.state.live == j.live && r.state.Saved() == j.Saved() &&
            AwaitingAnswer(r.state.Log(), call)
  {
    hide CommitAllowed, ValidPath, Extends;
    if !j.live.kind.Custom? && !j.live.kind.Unlisted? { NoteOn(j, Restored, cfg, base); }
  }

  lemma ScenarioCleanupOn(j: Job, cfg: Config, base: Path)
    requires At(j, CleaningUp, cfg, base)
    ensures var r := Scenarios.Cleanup(j);
            At(r.state, CleaningUp, cfg, base) && r.state.live == j.live &&
            (!r.Died? ==> AwaitingAnswer(r.state.Log(), CleanupCalled)) &&
            (r.Done? && r.value ==> Owned(j.live.kind, j.live.context))
  {
    hide CommitAllowed, ValidPath, Extends;
    var spent := Spend(j, AtPort);
    if spent.Done? {
      var k := Note(spent.state, CleanupCalled);
      NoteOn(spent.state, CleanupCalled, cfg, base);
      if Owned(j.live.kind, j.live.context) { RestoreOn(k, CleanupCalled, cfg, base); }
    }
  }

  lemma ScenarioVerifyOn(j: Job, cfg: Config, base: Path)
    requires On(j, cfg, base) && j.Saved().state == CleaningUp && Latest(j.Log(), CleanupAnswered(true))
    requires Owned(j.live.kind, j.live.context)
    requires j.live.kind == j.Saved().kind && j.live.context == j.Saved().context
    ensures var r := Scenarios.VerifyCleanup(j);
            On(r.state, cfg, base) && r.state.live == j.live && r.state.Saved() == j.Saved() &&
            (!r.Died? ==> AwaitingAnswer(r.state.Log(), VerifyCalled))
  {
    hide CommitAllowed, ValidPath, Extends;
    var spent := Spend(j, AtPort);
    if spent.Done? {
      NoteOn(spent.state, VerifyCalled, cfg, base);
      RestoreOn(Note(spent.state, VerifyCalled), VerifyCalled, cfg, base);
    }
  }

  // The attempt of the pass is durable, and numbered next.
  ghost predicate Attempted(j: Job, r: JobResult<(nat, bool)>, cfg: Config, base: Path) {
    On(r.state, cfg, base) && !r.Raised? &&
    (r.Done? ==>
       var (number, ok) := r.value;
       && At(r.state, CleaningUp, cfg, base)
       && Latest(r.state.Log(), CleanupAnswered(ok))
       && number == |r.state.live.attempts| == |j.live.attempts| + 1
       && r.state.live == j.live.(attempts := r.state.live.attempts)
       && r.state.live.attempts[..number - 1] == j.live.attempts && r.state.live.attempts[number - 1].ok == ok
       && (ok ==> Owned(j.live.kind, j.live.context)))
  }

  lemma RecordCommittable(j: Job, attempt: Attempt, cfg: Config, base: Path)
    requires At(j, CleaningUp, cfg, base) && Latest(j.Log(), CleanupAnswered(attempt.ok))
    requires attempt.number == NextAttempt(j.live.attempts)
    ensures var k := RecordAttempt(j, attempt);
            attempt.number == |j.live.attempts| + 1 && k == j.(live := k.live) &&
            k.live == j.live.(attempts := j.live.attempts + [attempt]) && Committable(k, cfg)
  {
    CleanCommittable(j, cfg, base);
    NumberedMax(j.live.attempts);
    SameLogFollows(j.Saved(), j.live, RecordAttempt(j, attempt).live);
    hide Follows;
  }

  lemma RecordOn(j: Job, attempt: Attempt, cfg: Config, base: Path)
    requires At(j, CleaningUp, cfg, base) && Latest(j.Log(), CleanupAnswered(attempt.ok))
    requires attempt.number == NextAttempt(j.live.attempts)
    ensures var r := Commit(RecordAttempt(j, attempt));
            On(r.state, cfg, base) && !r.Raised? &&
            (r.Done? ==> At(r.state, CleaningUp, cfg, base) && r.state.Log() == j.Log() &&
                         attempt.number == |r.state.live.attempts| == |j.live.attempts| + 1 &&
                         r.state.live == j.live.(attempts := j.live.attempts + [attempt]))
  {
    hide CommitAllowed, ValidPath, Extends;
    RecordCommittable(j, attempt, cfg, base);
    CommitOn(RecordAttempt(j, attempt), cfg, base);
  }

  lemma AttemptOn(j: Job, cfg: Config, base: Path)
    requires At(j, CleaningUp, cfg, base)
    ensures Attempted(j, AttemptCleanup(j), cfg, base)
  {
    hide CommitAllowed, ValidPath, Extends;
    var started := ReadClock(j);
    ScenarioCleanupOn(started.1, cfg, base);
    var answered := Caught(Scenarios.Cleanup(started.1));
    if answered.Done? {
      var ok := answered.value == Some(true);
      var k := Note(answered.state, CleanupAnswered(ok));
      NoteOn(answered.state, CleanupAnswered(ok), cfg, base);
      var completed := ReadClock(k);
      RecordOn(completed.1, Attempt(NextAttempt(j.live.attempts), ok, answered.value.Some?, started.0, completed.0), cfg, base);
    }
  }

  // Cleanup succeeded and was verified or not; the move to verifying is pending or committed.
  ghost predicate Concluding(j: Job, cancelled: bool, verified: bool, cfg: Config, base: Path) {
    && On(j, cfg, base) && j.live.state == Verifying && Latest(j.Log(), VerifyAnswered(verified))
    && (cancelled <==> j.live.outcome == Some(CancelledPending))
    && (|| j.Clean()
        || (&& j.Saved().state == CleaningUp && Moves(j.Saved(), j.live, Verifying)
            && j.live == j.Saved().(state := j.live.state, revision := j.live.revision, audit := j.live.audit)))
  }

  lemma ConcludingCommittable(j: Job, cancelled: bool, verified: bool, cfg: Config, base: Path)
    requires Concluding(j, cancelled, verified, cfg, base) && !j.Clean()
    ensures Committable(j, cfg)
  {
    PathSound(j.path, cfg.Limit());
    OneMove(j.Saved(), j.live, Verifying);
  }

  lemma FinishFollows(j: Job, k: Job, cancelled: bool, verified: bool, cfg: Config, base: Path)
    requires Concluding(j, cancelled, verified, cfg, base) && k.path == j.path
    requires Moves(j.live, k.live, Conclusion(cancelled, verified))
    ensures Follows(j.Saved(), k.live)
  {
    hide CommitAllowed, ValidPath, Extends;
    PathSound(j.path, cfg.Limit());
    if j.Clean() {
      OneMove(j.live, k.live, Conclusion(cancelled, verified));
    } else {
      TwoMoves(j.Saved(), j.live, k.live, Conclusion(cancelled, verified));
    }
  }

  lemma FinishCommittable(j: Job, k: Job, cancelled: bool, verified: bool, cfg: Config, base: Path)
    requires Concluding(j, cancelled, verified, cfg, base) && k.path == j.path
    requires Moves(j.live, k.live, Conclusion(cancelled, verified))
    requires k.live == j.live.(outcome := Some(Final(Conclusion(cancelled, verified))),
                               attention := if verified then j.live.attention else Some(VerificationFailed),
                               state := k.live.state, revision := k.live.revision, audit := k.live.audit)
    ensures Committable(k, cfg)
  {
    hide Follows;
    FinishFollows(j, k, cancelled, verified, cfg, base);
  }

  lemma FinishOn(j: Job, cancelled: bool, verified: bool, cfg: Config, base: Path)
    requires Concluding(j, cancelled, verified, cfg, base)
    ensures var r := Finish(j, cancelled, verified, cfg);
            On(r.state, cfg, base) && !r.Raised? &&
            (r.Done? ==> r.value == Conclusion(cancelled, verified) && At(r.state, r.value, cfg, base))
  {
    hide CommitAllowed, ValidPath, Extends;
    var target := Conclusion(cancelled, verified);
    var judged := Judged(j, cancelled, verified);
    TransitMoves(judged, target, VerificationEnded(verified), cfg.actor);
    var moved := Transit(judged, target, VerificationEnded(verified), cfg.actor).state;
    FinishCommittable(j, moved, cancelled, verified, cfg, base);
    CommitOn(moved, cfg, base);
  }

  lemma VerdictOn(j: Job, cancelled: bool, verified: bool, cfg: Config, base: Path)
    requires Concluding(j, cancelled, verified, cfg, base) && !j.Clean()
    ensures var seen := Observe(j, Phase.After, cfg);
            On(seen.state, cfg, base) && !seen.Raised? &&
            (seen.Done? ==> Concluding(seen.state, cancelled, verified, cfg, base))
  {
    hide CommitAllowed, ValidPath, Extends;
    ConcludingCommittable(j, cancelled, verified, cfg, base);
    ObserveOn(j, Phase.After, cfg, base);
  }

  lemma ConcludeOn(j: Job, cancelled: bool, cfg: Config, base: Path)
    requires At(j, CleaningUp, cfg, base) && Latest(j.Log(), CleanupAnswered(true)) && Owned(j.live.kind, j.live.context)
    requires cancelled <==> j.live.outcome == Some(CancelledPending)
    ensures var r := Conclude(j, cancelled, cfg);
            On(r.state, cfg, base) && !r.Raised? &&
            (r.Done? ==> r.value in {Passed, Cancelled, OperatorAttention} && At(r.state, r.value, cfg, base))
  {
    hide CommitAllowed, ValidPath, Extends;
    TransitMoves(j, Verifying, CleanupSucceeded, cfg.actor);
    var k := Transit(j, Verifying, CleanupSucceeded, cfg.actor).state;
    ScenarioVerifyOn(k, cfg, base);
    var answered := Caught(Scenarios.VerifyCleanup(k));
    if answered.Done? {
      var verified := answered.value == Some(true);
      NoteOn(answered.state, VerifyAnswered(verified), cfg, base);
      var l := Note(answered.state, VerifyAnswered(verified));
      VerdictOn(l, cancelled, verified, cfg, base);
      var seen := Observe(l, Phase.After, cfg);
      if seen.Done? { FinishOn(seen.state, cancelled, verified, cfg, base); }
    }
  }

  /******* The whole pass *******/

  // A pass ends in the state it returns, and durably so; it raises only when the exhausted
  // cleanup asks for a transition the graph does not have.
  ghost predicate Cleaned(r: JobResult<State>, cfg: Config, base: Path) {
    && On(r.state, cfg, base)
    && (r.Done? ==> r.value in {Passed, Cancelled, OperatorAttention, CleanupFailed} && At(r.state, r.value, cfg, base))
    && (r.Raised? ==> r.error == TransitionNotAllowed && At(r.state, CleaningUp, cfg, base))
  }

  lemma CleanupMarkedOn(j: Job, cancelled: bool, cfg: Config, base: Path)
    requires At(j, CleaningUp, cfg, base) && (cancelled <==> j.live.outcome == Some(CancelledPending))
    ensures Cleaned(CleanupMarked(j, cancelled, cfg), cfg, base)
  {
    hide CommitAllowed, ValidPath, Extends, AttemptCleanup, Conclude, TransitAndCommit;
    AttemptOn(j, cfg, base);
    var tried := AttemptCleanup(j);
    if tried.Done? {
      var (number, ok) := tried.value;
      if ok {
        ConcludeOn(tried.state, cancelled, cfg, base);
      } else if number < cfg.Limit() {
        PathSound(j.path, cfg.Limit());
        StepOn(tried.state, CleanupFailed, CleanupRefused, cfg.actor, cfg, base);
      }
    }
  }

  lemma CleanupOn(j: Job, cancelled: bool, cfg: Config, base: Path)
    requires At(j, CleaningUp, cfg, base)
    requires j.live.outcome == Some(CancelledPending) ==> cancelled
    requires cancelled ==> Mentions(j.live.audit, CancellationRequested)
    ensures Cleaned(Cleanup(j, cancelled, cfg), cfg, base)
  {
    hide CommitAllowed, ValidPath, Extends;
    MarkOn(j, cancelled, cfg, base);
    var marked := MarkCancelled(j, cancelled);
    if marked.Done? { CleanupMarkedOn(marked.state, cancelled, cfg, base); }
  }

  lemma MarkOn(j: Job, cancelled: bool, cfg: Config, base: Path)
    requires At(j, CleaningUp, cfg, base)
    requires j.live.outcome == Some(CancelledPending) ==> cancelled
    requires cancelled ==> Mentions(j.live.audit, CancellationRequested)
    ensures var r := MarkCancelled(j, cancelled);
            On(r.state, cfg, base) && !r.Raised? &&
            (r.Done? ==> At(r.state, CleaningUp, cfg, base) && (cancelled <==> r.state.live.outcome == Some(CancelledPending)))
  {
    CleanCommittable(j, cfg, base);
    hide Follows;
    if cancelled {
      var k := j.(live := j.live.(outcome := Some(CancelledPending)));
      SameLogFollows(j.Saved(), j.live, k.live);
      assert Committable(k, cfg);
      CommitOn(k, cfg, base);
    }
  }

  lemma AttendOn(j: Job, cfg: Config, base: Path)
    requires At(j, j.live.state, cfg, base)
    ensures var r := Attend(j, cfg);
            On(r.state, cfg, base) && !r.Raised? &&
            (r.Done? ==> At(r.state, r.value, cfg, base) &&
                         (if j.live.state == Active then r.value in {Active, Expired} else r.state == j))
  {
    hide CommitAllowed, ValidPath, Extends;
    if j.live.state == Active {
      var clock := ReadClock(j);
      if clock.0 >= j.live.expiresAt {
        StepOn(clock.1, Expired, DeadlineReached, cfg.actor, cfg, base);
      } else {
        CleanCommittable(clock.1, cfg, base);
        ObserveOn(clock.1, During, cfg, base);
      }
    }
  }

  // If a pass raises, either nothing is pending or only the move from planned to preflight.
  ghost predicate Passing(r: JobResult<State>, cfg: Config, base: Path) {
    && On(r.state, cfg, base)
    && (r.Done? ==> At(r.state, r.value, cfg, base) && !r.value.Injecting? && !r.value.Verifying?)
    && (r.Raised? ==> || (r.error == TransitionNotAllowed && At(r.state, CleaningUp, cfg, base))
                      || Preparing(r.state, cfg, base))
  }

  lemma RetireOn(j: Job, cfg: Config, base: Path)
    requires At(j, j.live.state, cfg, base) && !j.live.state.Injecting? && !j.live.state.Verifying?
    ensures Passing(Retire(j, cfg), cfg, base)
  {
    hide CommitAllowed, ValidPath, Extends, Justified, Cleanup;
    var state := j.live.state;
    if NeedsCleanup(state) {
      PathSound(j.path, cfg.Limit());
      var entered := if state == CleaningUp then Done(state, j)
                     else TransitAndCommit(j, CleaningUp, CleanupRequired, cfg.actor);
      if state != CleaningUp { StepOn(j, CleaningUp, CleanupRequired, cfg.actor, cfg, base); }
      if entered.Done? {
        CancelledMentions(j, entered.state, cfg, base);
        CleanupOn(entered.state, state == CancellationRequested || entered.state.live.outcome == Some(CancelledPending), cfg, base);
      }
    }
  }

  lemma CancelledMentions(j: Job, k: Job, cfg: Config, base: Path)
    requires On(j, cfg, base) && On(k, cfg, base) && j.Clean() && k.Clean()
    requires k == j || Moves(j.live, k.live, CleaningUp)
    ensures j.live.state == CancellationRequested || k.live.outcome == Some(CancelledPending) ==>
              Mentions(k.live.audit, CancellationRequested) || (k == j && k.live.state == CancellationRequested)
  {
    hide CommitAllowed, ValidPath, Extends;
    PathSound(j.path, cfg.Limit());
    PathSound(k.path, cfg.Limit());
    if j.live.state == CancellationRequested && k != j {
      var n := |j.live.audit|;
      assert j.live.audit[n - 1].to == CancellationRequested;
      assert k.live.audit[..n] == j.live.audit;
      assert Count(k.live.audit, CancellationRequested) >= Count(j.live.audit, CancellationRequested) >= 1;
    }
  }

  // The result at the centre of the safety properties: from any row the claim query or the
  // restart can hand over, whatever the ports answer and wherever the process dies, every
  // durable condition in between follows the protocol.
  lemma RunOnceOn(j: Job, cfg: Config, base: Path)
    requires At(j, j.live.state, cfg, base) && Claimable(j.live.state)
    ensures Passing(RunOnce(j, cfg), cfg, base)
  {
    hide CommitAllowed, ValidPath, Extends;
    var entered := Note(j, Entered);
    NoteOn(j, Entered, cfg, base);
    var prepared := if j.live.state in {Planned, State.Preflight} then Prepare(entered, cfg) else Done(j.live.state, entered);
    if j.live.state in {Planned, State.Preflight} { PrepareOn(entered, cfg, base); }
    if prepared.Done? {
      var injected := if prepared.value == Injecting then Inject(prepared.state, cfg) else prepared;
      if prepared.value == Injecting { InjectOn(prepared.state, cfg, base); }
      if injected.Done? {
        AttendOn(injected.state, cfg, base);
        var attended := Attend(injected.state, cfg);
        if attended.Done? { RetireOn(attended.state, cfg, base); }
      }
    }
  }
}
