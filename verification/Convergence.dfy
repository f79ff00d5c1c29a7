/** Once the deadline has passed, every pass of the coordinator brings an experiment to its end or
    uses up one cleanup attempt. */
module Convergence {
  import opened Wrappers
  import opened Lifecycle
  import opened Rows
  import opened Machine
  import opened Evidence
  import opened Protocol
  import opened Invariants
  import opened CoordinatorSpec
  import opened CoordinatorFollows
  import opened CleanupFollows
  import Scenarios

  // Attempts exhausted and the effect still there: the row stays in cleaning_up.
  predicate Exhausted(r: Row, limit: nat) { r.state == CleaningUp && |r.attempts| >= limit }

  predicate Settled(r: Row, limit: nat) { Terminal(r.state) || Exhausted(r, limit) }

  // What one pass achieves over a row that had `before` attempts.
  ghost predicate Progress(before: nat, r: JobResult<State>, cfg: Config) {
    r.Died? ||
    (&& r.state.Clean() && On(r.state, cfg, r.state.path)
     && if r.Raised? then
          r.error == TransitionNotAllowed && Exhausted(r.state.live, cfg.Limit())
          && |r.state.live.attempts| == before + 1
        else
          r.value == r.state.live.state &&
          (Terminal(r.value) || (r.value == CleanupFailed && |r.state.live.attempts| == before + 1 < cfg.Limit())))
  }

  lemma Reflexive(j: Job, cfg: Config, base: Path)
    requires On(j, cfg, base)
    ensures On(j, cfg, j.path)
  {
    hide ValidPath;
  }

  // Exactly how an attempt that did not succeed ends: short of the limit it is retried later; at
  // the limit the coordinator asks for a transition the graph does not have, the attempt stays
  // recorded and the row stays where it is.
  lemma FailedAttemptEnds(j: Job, cancelled: bool, cfg: Config)
    requires At(j, CleaningUp, cfg, j.path)
    requires var tried := AttemptCleanup(j); tried.Done? && !tried.value.1
    ensures var r := CleanupMarked(j, cancelled, cfg);
            && (r.Raised? <==> |j.live.attempts| + 1 >= cfg.Limit())
            && (r.Raised? ==> r.error == TransitionNotAllowed && r.state.live.state == CleaningUp && r.state.Clean() &&
                              |r.state.live.attempts| == |j.live.attempts| + 1)
            && (r.Done? ==> r.value == CleanupFailed && |r.state.live.attempts| == |j.live.attempts| + 1)
  {
    hide CommitAllowed, ValidPath, Extends, AttemptCleanup;
    AttemptOn(j, cfg, j.path);
    var tried := AttemptCleanup(j);
    if |j.live.attempts| + 1 < cfg.Limit() {
      PathSound(j.path, cfg.Limit());
      StepOn(tried.state, CleanupFailed, CleanupRefused, cfg.actor, cfg, j.path);
    }
  }

  lemma CleanupProgress(j: Job, cancelled: bool, cfg: Config)
    requires At(j, CleaningUp, cfg, j.path)
    requires j.live.outcome == Some(CancelledPending) ==> cancelled
    requires cancelled ==> Mentions(j.live.audit, CancellationRequested)
    ensures Progress(|j.live.attempts|, Cleanup(j, cancelled, cfg), cfg)
  {
    hide CommitAllowed, ValidPath, Extends, AttemptCleanup, CleanupMarked;
    MarkOn(j, cancelled, cfg, j.path);
    var marked := MarkCancelled(j, cancelled);
    if marked.Done? {
      Reflexive(marked.state, cfg, j.path);
      assert marked.state.live.attempts == j.live.attempts;
      MarkedProgress(marked.state, cancelled, cfg);
    }
  }

  lemma MarkedProgress(j: Job, cancelled: bool, cfg: Config)
    requires At(j, CleaningUp, cfg, j.path) && (cancelled <==> j.live.outcome == Some(CancelledPending))
    ensures Progress(|j.live.attempts|, CleanupMarked(j, cancelled, cfg), cfg)
  {
    hide CommitAllowed, ValidPath, Extends, AttemptCleanup, Conclude;
    CleanupMarkedOn(j, cancelled, cfg, j.path);
    AttemptOn(j, cfg, j.path);
    var tried := AttemptCleanup(j);
    var r := CleanupMarked(j, cancelled, cfg);
    Reflexive(r.state, cfg, j.path);
    if tried.Done? {
      if tried.value.1 {
        ConcludeOn(tried.state, cancelled, cfg, j.path);
      } else {
        FailedAttemptEnds(j, cancelled, cfg);
      }
    }
  }

  lemma RetireProgress(j: Job, cfg: Config)
    requires At(j, j.live.state, cfg, j.path) && (NeedsCleanup(j.live.state) || Terminal(j.live.state))
    ensures Progress(|j.live.attempts|, Retire(j, cfg), cfg)
  {
    hide CommitAllowed, ValidPath, Extends, Cleanup;
    var state := j.live.state;
    if NeedsCleanup(state) {
      PathSound(j.path, cfg.Limit());
      var entered := if state == CleaningUp then Done(state, j)
                     else TransitAndCommit(j, CleaningUp, CleanupRequired, cfg.actor);
      if state != CleaningUp { StepOn(j, CleaningUp, CleanupRequired, cfg.actor, cfg, j.path); }
      if entered.Done? {
        CancelledMentions(j, entered.state, cfg, j.path);
        Reflexive(entered.state, cfg, j.path);
        assert entered.state.live.attempts == j.live.attempts;
        CleanupProgress(entered.state, state == CancellationRequested || entered.state.live.outcome == Some(CancelledPending), cfg);
      }
    }
  }

  // The preflight ports return an answer and the stored parameters are within bounds.
  predicate PreflightReturns(r: Row, env: Env) {
    r.state in {Planned, State.Preflight} ==>
      && ParametersAccepted(r.kind, r.parameters)
      && (HasPreflight(r.kind) ==> env.control != [] && env.control[0].Reply?)
      && env.gate != [] && env.gate[0].Verdict?
  }

  // The clock never runs back and the row's deadline and attempts are untouched on the way.
  ghost predicate Later(j: Job, k: Job) {
    && k.env.now >= j.env.now && k.live.expiresAt == j.live.expiresAt && k.live.attempts == j.live.attempts
  }

  lemma PrepareLater(j: Job, cfg: Config)
    requires j.live.state in {Planned, State.Preflight} && PreflightReturns(j.live, j.env)
    ensures var r := Prepare(j, cfg); !r.Raised? && Later(j, r.state)
  {
    var k := EnterPreflight(j, cfg).state;
    var probed := if HasPreflight(k.live.kind) then Scenarios.Preflight(k) else Done(true, k);
    assert !probed.Raised? && Later(j, probed.state) && probed.state.live == k.live && probed.state.env.gate == j.env.gate;
    if probed.Done? && probed.value {
      var checked := AskGate(probed.state);
      assert !checked.Raised? && Later(j, checked.state) && checked.state.live == k.live;
      if checked.Done? && checked.value { ObserveLater(checked.state, Before, cfg); }
    }
  }

  lemma ObserveLater(j: Job, phase: Phase, cfg: Config)
    ensures var r := Observe(j, phase, cfg);
            !r.Raised? && Later(j, r.state) && r.state.live.state == j.live.state && r.state.live.revision == j.live.revision
  {
  }

  lemma InjectLater(j: Job, cfg: Config)
    ensures Later(j, Inject(j, cfg).state)
  {
    var injected := Scenarios.Inject(j);
    assert Later(j, injected.state);
    if injected.Done? {
      var saved := Commit(injected.state.(live := injected.state.live.(context := Some(injected.value))));
      if saved.Done? { assert Later(j, Confirm(saved.state, cfg).state); }
    }
    assert Later(j, TryInject(j, cfg).state);
  }

  // One pass after the deadline: the experiment ends, or one more cleanup attempt is spent.
  lemma PassProgress(j: Job, cfg: Config)
    requires At(j, j.live.state, cfg, j.path) && Claimable(j.live.state)
    requires j.env.now >= j.live.expiresAt && PreflightReturns(j.live, j.env)
    ensures Progress(|j.live.attempts|, RunOnce(j, cfg), cfg)
  {
    hide CommitAllowed, ValidPath, Extends, Prepare, Inject, Retire;
    var entered := Note(j, Entered);
    NoteOn(j, Entered, cfg, j.path);
    var prepared := if j.live.state in {Planned, State.Preflight} then Prepare(entered, cfg) else Done(j.live.state, entered);
    if j.live.state in {Planned, State.Preflight} {
      PrepareOn(entered, cfg, j.path);
      PrepareLater(entered, cfg);
    }
    if prepared.Done? {
      var injected := if prepared.value == Injecting then Inject(prepared.state, cfg) else prepared;
      if prepared.value == Injecting {
        InjectOn(prepared.state, cfg, j.path);
        InjectLater(prepared.state, cfg);
      }
      if injected.Done? {
        AttendOn(injected.state, cfg, j.path);
        AttendExpires(injected.state, cfg);
        var attended := Attend(injected.state, cfg);
        if attended.Done? {
          Reflexive(attended.state, cfg, j.path);
          RetireProgress(attended.state, cfg);
        }
      }
    }
  }

  lemma AttendExpires(j: Job, cfg: Config)
    requires j.env.now >= j.live.expiresAt
    ensures var r := Attend(j, cfg);
            r.state.live.attempts == j.live.attempts && (r.Done? && j.live.state == Active ==> r.value == Expired)
  {
  }

  // The deadline is kept from both sides. Before it, a pass over an active row observes it and
  // changes nothing else; from it on, no pass that returns leaves the row active.
  lemma ActiveUntilDeadline(j: Job, cfg: Config)
    requires At(j, Active, cfg, j.path)
    ensures var r := RunOnce(j, cfg);
            && (j.env.now < j.live.expiresAt ==>
                  && !r.Raised? && r.state.Log() == Logged(j.Log(), Entered)
                  && r.state.live.(observations := j.live.observations) == j.live && (r.Done? ==> r.value == Active))
            && (j.env.now >= j.live.expiresAt && r.Done? ==> Terminal(r.value) || r.value == CleanupFailed)
  {
    hide CommitAllowed, ValidPath, Extends, Retire, Prepare, Inject;
    if j.env.now >= j.live.expiresAt {
      PassProgress(j, cfg);
      hide RunOnce;
    } else {
      var entered := Note(j, Entered);
      var attended := Attend(entered, cfg);
      ObservedOnly(ReadClock(entered).1, cfg);
      if attended.Done? { RetireLeaves(attended.state, cfg); }
    }
  }

  lemma ObservedOnly(j: Job, cfg: Config)
    ensures var r := Observe(j, During, cfg);
            !r.Raised? && r.state.Log() == j.Log() && r.state.live.(observations := j.live.observations) == j.live
  {
  }

  lemma RetireLeaves(j: Job, cfg: Config)
    requires j.live.state == Active
    ensures Retire(j, cfg) == Done(Active, j)
  {
  }

  /******* Any number of passes *******/

  // Successive passes, each with the answers of its own environment; none over a terminal row,
  // and the next pass follows whether the previous one returned or raised. None if one died.
  function PassesUntilDone(path: Path, envs: seq<Env>, cfg: Config): Option<Path> {
    if envs == [] then Some(path)
    else
      var earlier := PassesUntilDone(path, envs[..|envs| - 1], cfg);
      if earlier.None? || Terminal(earlier.value.cell.row.state) then earlier
      else
        var r := RunOnce(Job(earlier.value, earlier.value.cell.row, envs[|envs| - 1]), cfg);
        if r.Died? then None else Some(r.state.path)
  }

  ghost predicate Standing(path: Path, done: nat, cfg: Config) {
    && ValidPath(path, cfg.Limit())
    && var r := path.cell.row;
       Settled(r, cfg.Limit()) || (r.state == CleanupFailed && done <= |r.attempts| < cfg.Limit())
  }

  lemma OnePass(path: Path, env: Env, done: nat, cfg: Config)
    requires Standing(path, done, cfg) && !Terminal(path.cell.row.state)
    requires env.now >= path.cell.row.expiresAt
    ensures var r := RunOnce(Job(path, path.cell.row, env), cfg);
            r.Died? || Standing(r.state.path, done + 1, cfg)
  {
    hide CommitAllowed, ValidPath, Extends, RunOnce;
    JobOnPath(path, env, cfg);
    PassProgress(Job(path, path.cell.row, env), cfg);
  }

  lemma JobOnPath(path: Path, env: Env, cfg: Config)
    requires ValidPath(path, cfg.Limit())
    ensures At(Job(path, path.cell.row, env), path.cell.row.state, cfg, path)
  {
    hide ValidPath;
  }

  lemma FirstPass(path: Path, env: Env, cfg: Config)
    requires ValidPath(path, cfg.Limit()) && Claimable(path.cell.row.state)
    requires env.now >= path.cell.row.expiresAt && PreflightReturns(path.cell.row, env)
    ensures var r := RunOnce(Job(path, path.cell.row, env), cfg);
            r.Died? || Standing(r.state.path, 1, cfg)
  {
    hide CommitAllowed, ValidPath, Extends, RunOnce;
    JobOnPath(path, env, cfg);
    PassProgress(Job(path, path.cell.row, env), cfg);
  }

  lemma {:induction false} PassesStand(path: Path, envs: seq<Env>, cfg: Config)
    requires ValidPath(path, cfg.Limit()) && Claimable(path.cell.row.state) && envs != []
    requires forall env <- envs :: env.now >= path.cell.row.expiresAt
    requires PreflightReturns(path.cell.row, envs[0])
    ensures var q := PassesUntilDone(path, envs, cfg);
            q.Some? ==> Standing(q.value, |envs|, cfg) && Extends(path, q.value)
  {
    hide CommitAllowed, ValidPath, RunOnce;
    var n := |envs| - 1;
    if n == 0 {
      assert PassesUntilDone(path, envs[..0], cfg) == Some(path);
      FirstPass(path, envs[0], cfg);
      PassExtends(path, path, envs[0], cfg);
    } else {
      PassesStand(path, envs[..n], cfg);
      var earlier := PassesUntilDone(path, envs[..n], cfg);
      if earlier.Some? && !Terminal(earlier.value.cell.row.state) {
        PathKeepsIdentity(path, earlier.value, cfg.Limit());
        OnePass(earlier.value, envs[n], n, cfg);
        PassExtends(path, earlier.value, envs[n], cfg);
      }
    }
  }

  lemma PassExtends(base: Path, path: Path, env: Env, cfg: Config)
    requires ValidPath(path, cfg.Limit()) && Claimable(path.cell.row.state) && Extends(base, path)
    ensures Extends(base, RunOnce(Job(path, path.cell.row, env), cfg).state.path)
  {
    hide ValidPath, RunOnce;
    RunOnceOn(Job(path, path.cell.row, env), cfg, base);
  }

  // Convergence after expiry. From any row the supervisor can claim, as many passes as there are
  // cleanup attempts, none of them cut short, end in a terminal state or in the one residue:
  // cleaning_up with its attempts used up.
  lemma ConvergesAfterExpiry(path: Path, envs: seq<Env>, cfg: Config)
    requires ValidPath(path, cfg.Limit()) && Claimable(path.cell.row.state)
    requires |envs| >= cfg.Limit() && forall env <- envs :: env.now >= path.cell.row.expiresAt
    requires PreflightReturns(path.cell.row, envs[0])
    ensures var q := PassesUntilDone(path, envs, cfg); q.Some? ==> Settled(q.value.cell.row, cfg.Limit())
  {
    hide ValidPath;
    PassesStand(path, envs, cfg);
  }

  // The condition on the parameters is needed: out of bounds, a row never leaves preflight.
  lemma InvalidParametersStay(j: Job, cfg: Config)
    requires At(j, j.live.state, cfg, j.path) && j.live.state in {Planned, State.Preflight}
    requires !ParametersAccepted(j.live.kind, j.live.parameters)
    ensures var r := RunOnce(j, cfg);
            r.Raised? && r.error == InvalidParameters && r.state.live.state == State.Preflight && Preparing(r.state, cfg, j.path)
  {
    hide CommitAllowed, ValidPath, Extends;
    var entered := Note(j, Entered);
    NoteOn(j, Entered, cfg, j.path);
    StartPreparing(entered, cfg, j.path);
  }
}
