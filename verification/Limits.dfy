/** How many cleanup attempts an experiment gets, said of the configured number itself, and at which
    attempt the coordinator raises. */
module Limits {
  import opened Wrappers
  import opened Lifecycle
  import opened Rows
  import opened Machine
  import opened Evidence
  import opened Protocol
  import opened Invariants
  import opened Safety
  import opened CoordinatorSpec
  import opened CoordinatorFollows
  import opened CleanupFollows
  import opened Convergence
  import opened Aspects
  import opened SupervisorSpec
  import opened SupervisorFollows
  import opened Passable
  import Scenarios

  // n attempts are configured; any number below one counts as one.
  predicate Grants(cfg: Config, n: int) {
    (cfg.maxAttempts >= 1 && n == cfg.maxAttempts) || (cfg.maxAttempts < 1 && n == 1)
  }

  // Exactly one attempt was added; it failed, and it is the n-th or a later one.
  predicate Overran(before: seq<Attempt>, after: seq<Attempt>, n: int) {
    && |after| == |before| + 1 && after[..|before|] == before
    && !after[|before|].ok && |after| >= n
  }

  // What a pass that lived to its end did to the attempts: nothing, or one more that failed, or
  // one more, and the experiment is over.
  predicate Tallied(before: seq<Attempt>, r: Row) {
    || r.attempts == before
    || (&& |r.attempts| == |before| + 1 && r.attempts[..|before|] == before
        && (r.attempts[|before|].ok ==> Terminal(r.state)))
  }

  /******* One pass *******/

  // A failed attempt raises exactly from the n-th on.
  lemma FailureRaisesExactly(j: Job, cancelled: bool, cfg: Config, n: int)
    requires At(j, CleaningUp, cfg, j.path) && Grants(cfg, n)
    requires var tried := AttemptCleanup(j); tried.Done? && !tried.value.1
    ensures CleanupMarked(j, cancelled, cfg).Raised? <==> |j.live.attempts| + 1 >= n
    ensures var r := CleanupMarked(j, cancelled, cfg);
            r.Done? ==> r.value == CleanupFailed && |r.state.live.attempts| == |j.live.attempts| + 1 < n
  {
    FailedAttemptEnds(j, cancelled, cfg);
    hide CommitAllowed, ValidPath, Extends, AttemptCleanup, CleanupMarked;
  }

  lemma AttemptDies(j: Job)
    requires j.Clean()
    ensures var r := AttemptCleanup(j); r.Died? ==> r.state.Saved() == j.Saved()
  {
    hide Scenarios.Cleanup, NextAttempt;
    PortsTouchNoRow(ReadClock(j).1);
  }

  ghost predicate RaisesAtLimit(before: seq<Attempt>, r: JobResult<State>, n: int) {
    && (r.Raised? && r.state.live.state == CleaningUp <==> Overran(before, r.state.Saved().attempts, n))
    && (!r.Died? ==> r.state.live.attempts == r.state.Saved().attempts && Tallied(before, r.state.Saved()))
  }

  lemma MarkedRaises(j: Job, cancelled: bool, cfg: Config, n: int)
    requires At(j, CleaningUp, cfg, j.path) && Grants(cfg, n) && (cancelled <==> j.live.outcome == Some(CancelledPending))
    ensures RaisesAtLimit(j.live.attempts, CleanupMarked(j, cancelled, cfg), n)
  {
    hide CommitAllowed, ValidPath, Extends, AttemptCleanup, Conclude, TransitAndCommit, GiveUp;
    AttemptOn(j, cfg, j.path);
    AttemptDies(j);
    var tried := AttemptCleanup(j);
    if tried.Done? {
      var after := tried.state.live.attempts;
      if tried.value.1 {
        ConcludeOn(tried.state, cancelled, cfg, j.path);
        ConcludeKept(tried.state, cancelled, cfg, Tried(after));
      } else {
        GiveUpKept(tried.state, cfg, Tried(after));
        StepKept(tried.state, CleanupFailed, CleanupRefused, cfg.actor, Tried(after));
        FailedAttemptEnds(j, cancelled, cfg);
      }
    }
  }

  lemma CleanupRaises(j: Job, cancelled: bool, cfg: Config, n: int)
    requires At(j, CleaningUp, cfg, j.path) && Grants(cfg, n)
    requires j.live.outcome == Some(CancelledPending) ==> cancelled
    requires cancelled ==> Mentions(j.live.audit, CancellationRequested)
    ensures RaisesAtLimit(j.live.attempts, Cleanup(j, cancelled, cfg), n)
  {
    hide CommitAllowed, ValidPath, Extends, CleanupMarked;
    MarkOn(j, cancelled, cfg, j.path);
    var marked := MarkCancelled(j, cancelled);
    assert marked.state.live.attempts == j.live.attempts == marked.state.Saved().attempts;
    if marked.Done? {
      Reflexive(marked.state, cfg, j.path);
      MarkedRaises(marked.state, cancelled, cfg, n);
    }
  }

  lemma RetireRaises(j: Job, cfg: Config, n: int)
    requires At(j, j.live.state, cfg, j.path) && Grants(cfg, n) && j.live.state != Injecting
    ensures RaisesAtLimit(j.live.attempts, Retire(j, cfg), n)
  {
    hide CommitAllowed, ValidPath, Extends, Cleanup, TransitAndCommit;
    var state := j.live.state;
    if NeedsCleanup(state) {
      PathSound(j.path, cfg.Limit());
      StepKept(j, CleaningUp, CleanupRequired, cfg.actor, Tried(j.live.attempts));
      var entered := if state == CleaningUp then Done(state, j)
                     else TransitAndCommit(j, CleaningUp, CleanupRequired, cfg.actor);
      if state != CleaningUp { StepOn(j, CleaningUp, CleanupRequired, cfg.actor, cfg, j.path); }
      if entered.Done? {
        CancelledMentions(j, entered.state, cfg, j.path);
        Reflexive(entered.state, cfg, j.path);
        CleanupRaises(entered.state, state == CancellationRequested || entered.state.live.outcome == Some(CancelledPending), cfg, n);
      }
    }
  }

  // Whatever state the pass starts from, and wherever the process dies: it raises out of the cleanup
  // exactly when it recorded a failed attempt that was the n-th or a later one.
  lemma PassRaisesExactly(j: Job, cfg: Config, n: int)
    requires At(j, j.live.state, cfg, j.path) && Claimable(j.live.state) && Grants(cfg, n)
    ensures RaisesAtLimit(j.live.attempts, RunOnce(j, cfg), n)
  {
    hide CommitAllowed, ValidPath, Extends, Prepare, Inject, Attend, Retire;
    var tried := Tried(j.live.attempts);
    var entered := Note(j, Entered);
    NoteOn(j, Entered, cfg, j.path);
    var early := j.live.state in {Planned, State.Preflight};
    if early { PrepareOn(entered, cfg, j.path); }
    PrepareKept(entered, cfg, tried);
    var prepared := if early then Prepare(entered, cfg) else Done(j.live.state, entered);
    if prepared.Done? {
      InjectKept(prepared.state, cfg, tried);
      var injected := if prepared.value == Injecting then Inject(prepared.state, cfg) else prepared;
      if prepared.value == Injecting { InjectOn(prepared.state, cfg, j.path); }
      if injected.Done? {
        AttendKept(injected.state, cfg, tried);
        AttendOn(injected.state, cfg, j.path);
        var attended := Attend(injected.state, cfg);
        if attended.Done? {
          Reflexive(attended.state, cfg, j.path);
          RetireRaises(attended.state, cfg, n);
        }
      }
    }
  }

  /******* Every run *******/

  // At most n-1 moves into cleanup_failed, and at most 2n+5 transitions.
  lemma RetriesConfigured(ops: seq<Op>, p: Policy, id: Id, n: int)
    requires id in Run(ops, p).paths && Grants(p.coordinator, n)
    ensures Count(Run(ops, p).Row(id).audit, CleanupFailed) <= n - 1
    ensures Run(ops, p).Row(id).revision <= 2 * n + 5
  {
    EveryRunFollows(ops, p);
    BoundedLifecycle(Run(ops, p).paths[id], p.coordinator.Limit());
    hide ValidPath, Run;
  }

  // The k-th attempt was the first of those from the n-th on that failed.
  predicate FirstRaise(attempts: seq<Attempt>, n: int, k: int) {
    1 <= n <= k <= |attempts| && !attempts[k - 1].ok && forall i :: n - 1 <= i < k - 1 ==> attempts[i].ok
  }

  /******* A death can put the first raise off *******/

  // Alive until the attempt is recorded.
  function UntilRecorded(r: Row, control: seq<ControlAnswer>): Env {
    NOTHING.(control := control, life := 3 + if Remembers(r) then 1 else 0)
  }

  lemma MarkedUntil(path: Path, control: seq<ControlAnswer>, cfg: Config)
    requires ValidPath(path, cfg.Limit()) && path.cell.row.state == CleaningUp
    ensures var row := path.cell.row;
            var marked := MarkCancelled(Note(Job(path, row, UntilRecorded(row, control)), Entered), Remembers(row)).state;
            && RunOnce(Job(path, row, UntilRecorded(row, control)), cfg) == CleanupMarked(marked, Remembers(row), cfg)
            && At(marked, CleaningUp, cfg, marked.path) && marked.env == NOTHING.(control := control, life := 3)
            && marked.live == row.(outcome := marked.live.outcome)
  {
    hide CommitAllowed, ValidPath, Extends, CleanupMarked, Mentions;
    var row := path.cell.row;
    var j := Job(path, row, UntilRecorded(row, control));
    JobOnPath(path, j.env, cfg);
    var entered := Note(j, Entered);
    NoteOn(j, Entered, cfg, path);
    PathSound(path, cfg.Limit());
    MarkPaid(entered, Remembers(row), cfg, path);
    Reflexive(MarkCancelled(entered, Remembers(row)).state, cfg, path);
  }

  // An owned row is cleaned up, and the process dies as it starts to verify: the attempt stays
  // recorded as a success and the row stays in cleaning_up.
  lemma DiesVerifying(path: Path, cfg: Config)
    requires ValidPath(path, cfg.Limit()) && path.cell.row.state == CleaningUp
    requires Owned(path.cell.row.kind, path.cell.row.context)
    ensures var row := path.cell.row;
            var r := RunOnce(Job(path, row, UntilRecorded(row, [Reply(Gone(row.kind))])), cfg);
            && r.Died? && r.state.Saved().state == CleaningUp && ValidPath(r.state.path, cfg.Limit())
            && |r.state.Saved().attempts| == |row.attempts| + 1 && r.state.Saved().attempts[|row.attempts|].ok
            && r.state.Saved().attempts[..|row.attempts|] == row.attempts
  {
    hide CommitAllowed, ValidPath, Extends, AttemptCleanup, Owned, Gone, RunOnce;
    var row := path.cell.row;
    var control := [Reply(Gone(row.kind))];
    MarkedUntil(path, control, cfg);
    var marked := MarkCancelled(Note(Job(path, row, UntilRecorded(row, control)), Entered), Remembers(row)).state;
    AttemptOn(marked, cfg, marked.path);
    AttemptAnswered(marked);
  }

  lemma FailsAgain(path: Path, cfg: Config, n: int)
    requires ValidPath(path, cfg.Limit()) && path.cell.row.state == CleaningUp && Grants(cfg, n)
    requires |path.cell.row.attempts| >= n
    ensures var row := path.cell.row;
            var r := RunOnce(Job(path, row, UntilRecorded(row, [])), cfg);
            && r.Raised? && |r.state.Saved().attempts| == |row.attempts| + 1 && !r.state.Saved().attempts[|row.attempts|].ok
            && r.state.Saved().attempts[..|row.attempts|] == row.attempts
  {
    hide CommitAllowed, ValidPath, Extends, AttemptCleanup, Owned, RunOnce;
    var row := path.cell.row;
    MarkedUntil(path, [], cfg);
    var marked := MarkCancelled(Note(Job(path, row, UntilRecorded(row, [])), Entered), Remembers(row)).state;
    AttemptOn(marked, cfg, marked.path);
    AttemptFaults(marked);
    FailureRaisesExactly(marked, Remembers(row), cfg, n);
  }

  lemma AttemptFaults(j: Job)
    requires j.env == NOTHING.(life := 3)
    ensures var r := AttemptCleanup(j); r.Done? && !r.value.1
  {
    hide NextAttempt, Owned;
  }

  // From the last attempt of an owned row, one such death and one pass later the coordinator raises
  // for the first time, at the attempt after the n-th.
  lemma DeathPutsOffRaise(path: Path, cfg: Config, n: int)
    requires ValidPath(path, cfg.Limit()) && path.cell.row.state == CleaningUp && Grants(cfg, n)
    requires Owned(path.cell.row.kind, path.cell.row.context) && |path.cell.row.attempts| == n - 1
    ensures exists cut, next :: RaisesLate(path, cut, next, cfg, n)
  {
    hide ValidPath, RunOnce, Owned, UntilRecorded, Gone;
    var row := path.cell.row;
    var cut := UntilRecorded(row, [Reply(Gone(row.kind))]);
    DiesVerifying(path, cfg);
    var died := RunOnce(Job(path, row, cut), cfg).state;
    var next := UntilRecorded(died.Saved(), []);
    FailsAgain(died.path, cfg, n);
    assert RaisesLate(path, cut, next, cfg, n);
  }

  predicate RaisesLate(path: Path, cut: Env, next: Env, cfg: Config, n: int) {
    var died := RunOnce(Job(path, path.cell.row, cut), cfg);
    var r := RunOnce(Job(died.state.path, died.state.Saved(), next), cfg);
    died.Died? && r.Raised? && FirstRaise(r.state.Saved().attempts, n, n + 1)
  }
}
