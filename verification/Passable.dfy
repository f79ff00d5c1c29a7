/** Answers of the outside that get a row through cleanup, exactly paid for: every call answered,
    and the process alive to the end. */
module Passable {
  import opened Wrappers
  import opened Lifecycle
  import opened Rows
  import opened Machine
  import opened Evidence
  import opened Protocol
  import opened Invariants
  import opened CoordinatorSpec
  import opened CoordinatorFollows
  import opened CleanupFollows
  import opened SupervisorSpec
  import Scenarios

  // Nothing but control answers, and a clock that stands still.
  predicate Tranquil(env: Env) { env.gate == [] && env.site == [] && env.advances == [] }

  const NOTHING := Env([], [], [], 0, [], 0)

  // An answer that reports the effect of this kind gone.
  function Gone(kind: Kind): Reading { Reading(true, false, kind.ApacheStop?, false, false, false, 0, 0, 0) }

  lemma GoneIsGone(kind: Kind)
    ensures EffectGone(kind, Gone(kind))
  {
  }

  function Spent(env: Env, answers: nat, life: nat): Env
    requires |env.control| >= answers && env.life >= life
  {
    env.(control := env.control[answers..], life := env.life - life)
  }

  /******* One cleanup *******/

  lemma AttemptAnswered(j: Job)
    requires Owned(j.live.kind, j.live.context) && j.env.life >= 3 && Tranquil(j.env)
    requires j.env.control != [] && j.env.control[0] == Reply(Gone(j.live.kind))
    ensures var r := AttemptCleanup(j); r.Done? && r.value.1 && r.state.env == Spent(j.env, 1, 3)
  {
    GoneIsGone(j.live.kind);
    var cleaned := Scenarios.Cleanup(ReadClock(j).1);
    assert cleaned.Done? && cleaned.value && cleaned.state.env == Spent(j.env, 1, 2);
    hide Scenarios.Cleanup, NextAttempt, EffectGone, Owned;
  }

  lemma AttemptRefused(j: Job)
    requires !Owned(j.live.kind, j.live.context) && j.env.life >= 2 && Tranquil(j.env)
    ensures var r := AttemptCleanup(j); r.Done? && !r.value.1 && r.state.env == Spent(j.env, 0, 2)
  {
    var cleaned := Scenarios.Cleanup(ReadClock(j).1);
    assert cleaned.Done? && !cleaned.value && cleaned.state.env == Spent(j.env, 0, 1);
    hide Scenarios.Cleanup, NextAttempt, Owned;
  }

  function Watched(cfg: Config): nat { if cfg.observed then 2 else 0 }

  lemma VerifyPaid(j: Job)
    requires Owned(j.live.kind, j.live.context) && j.env.life >= 2
    requires j.env.control != [] && j.env.control[0] == Reply(Gone(j.live.kind))
    ensures var r := Scenarios.VerifyCleanup(j);
            r.Done? && r.value && r.state.env == Spent(j.env, 1, 2) && r.state.live == j.live && r.state.Saved() == j.Saved()
  {
    GoneIsGone(j.live.kind);
  }

  lemma ObserveUnseen(j: Job, phase: Phase, cfg: Config)
    requires j.env.site == [] && j.env.life >= Watched(cfg)
    ensures var r := Observe(j, phase, cfg);
            r.Done? && r.state.env == Spent(j.env, 0, Watched(cfg)) && r.state.live == j.live.(observations := r.state.live.observations)
  {
    hide NextSequence;
  }

  lemma ConcludeAnswered(j: Job, cancelled: bool, cfg: Config)
    requires j.live.state == CleaningUp && Owned(j.live.kind, j.live.context) && j.env.life >= 3 + Watched(cfg)
    requires j.env.site == [] && j.env.control != [] && j.env.control[0] == Reply(Gone(j.live.kind))
    ensures var r := Conclude(j, cancelled, cfg);
            r.Done? && r.value == Conclusion(cancelled, true) && r.state.env == Spent(j.env, 1, 3 + Watched(cfg))
  {
    hide Scenarios.VerifyCleanup, Owned, Observe, Gone;
    var k := Transit(j, Verifying, CleanupSucceeded, cfg.actor).state;
    VerifyPaid(k);
    var noted := Note(Scenarios.VerifyCleanup(k).state, VerifyAnswered(true));
    ObserveUnseen(noted, Phase.After, cfg);
    FinishAnswered(Observe(noted, Phase.After, cfg).state, cancelled, cfg);
  }

  lemma FinishAnswered(j: Job, cancelled: bool, cfg: Config)
    requires j.live.state == Verifying && j.env.life >= 1
    ensures var r := Finish(j, cancelled, true, cfg);
            r.Done? && r.value == Conclusion(cancelled, true) && r.state.env == Spent(j.env, 0, 1)
  {
  }

  // Owned: cleaned and verified. Unowned and below the limit: one more failed attempt.
  lemma OwnedPaid(j: Job, cancelled: bool, cfg: Config, base: Path)
    requires At(j, CleaningUp, cfg, base) && Tranquil(j.env) && Owned(j.live.kind, j.live.context)
    requires |j.env.control| >= 2 && j.env.control[0] == j.env.control[1] == Reply(Gone(j.live.kind))
    requires j.env.life >= 6 + Watched(cfg)
    ensures var r := CleanupMarked(j, cancelled, cfg);
            r.Done? && r.value == Conclusion(cancelled, true) && r.state.env == Spent(j.env, 2, 6 + Watched(cfg))
  {
    hide CommitAllowed, ValidPath, Extends, AttemptCleanup, Conclude, Owned, Gone;
    AttemptOn(j, cfg, base);
    AttemptAnswered(j);
    ConcludeAnswered(AttemptCleanup(j).state, cancelled, cfg);
    assert j.env.control[1..][0] == j.env.control[1] && j.env.control[1..][1..] == j.env.control[2..];
  }

  lemma UnownedPaid(j: Job, cancelled: bool, cfg: Config, base: Path)
    requires At(j, CleaningUp, cfg, base) && Tranquil(j.env) && !Owned(j.live.kind, j.live.context)
    requires |j.live.attempts| + 1 < cfg.Limit() && j.env.life >= 3
    ensures var r := CleanupMarked(j, cancelled, cfg);
            r.Done? && r.value == CleanupFailed && r.state.env == Spent(j.env, 0, 3)
  {
    hide CommitAllowed, ValidPath, Extends, AttemptCleanup, Conclude, Owned;
    AttemptOn(j, cfg, base);
    AttemptRefused(j);
    PathSound(j.path, cfg.Limit());
    StepOn(AttemptCleanup(j).state, CleanupFailed, CleanupRefused, cfg.actor, cfg, base);
  }

  /******* A whole pass over a row that needs cleanup *******/

  predicate Remembers(r: Row) { r.state == CancellationRequested || r.outcome == Some(CancelledPending) }

  // The calls and commits of the pass.
  function Cost(r: Row, cfg: Config): nat {
    (if r.state == CleaningUp then 0 else 1) + (if Remembers(r) then 1 else 0)
    + (if Owned(r.kind, r.context) then 6 + Watched(cfg) else 3)
  }

  function Answers(r: Row): seq<ControlAnswer> {
    if Owned(r.kind, r.context) then [Reply(Gone(r.kind)), Reply(Gone(r.kind))] else []
  }

  function Enough(r: Row, rest: Env, cfg: Config): Env {
    rest.(control := Answers(r) + rest.control, life := Cost(r, cfg) + rest.life)
  }

  // No attempt is left that could be recorded without giving up.
  predicate LastAttempt(r: Row, limit: nat) { |r.attempts| + 1 >= limit }

  function PassValue(r: Row): State {
    if Owned(r.kind, r.context) then Conclusion(Remembers(r), true) else CleanupFailed
  }

  lemma MarkPaid(j: Job, cancelled: bool, cfg: Config, base: Path)
    requires At(j, CleaningUp, cfg, base) && (cancelled ==> j.env.life >= 1)
    requires j.live.outcome == Some(CancelledPending) ==> cancelled
    requires cancelled ==> Mentions(j.live.audit, CancellationRequested)
    ensures var r := MarkCancelled(j, cancelled);
            && r.Done? && At(r.state, CleaningUp, cfg, base) && r.state.env == Spent(j.env, 0, if cancelled then 1 else 0)
            && r.state.live == j.live.(outcome := r.state.live.outcome)
  {
    hide CommitAllowed, ValidPath, Extends, Mentions;
    MarkOn(j, cancelled, cfg, base);
  }

  lemma CleanupPaid(j: Job, cancelled: bool, cfg: Config, base: Path, rest: Env)
    requires At(j, CleaningUp, cfg, base) && Tranquil(rest)
    requires Owned(j.live.kind, j.live.context) || !LastAttempt(j.live, cfg.Limit())
    requires j.live.outcome == Some(CancelledPending) ==> cancelled
    requires cancelled ==> Mentions(j.live.audit, CancellationRequested)
    requires j.env == rest.(control := Answers(j.live) + rest.control,
                            life := (if cancelled then 1 else 0)
                                    + (if Owned(j.live.kind, j.live.context) then 6 + Watched(cfg) else 3) + rest.life)
    ensures var r := Cleanup(j, cancelled, cfg);
            && r.Done? && r.state.env == rest
            && r.value == if Owned(j.live.kind, j.live.context) then Conclusion(cancelled, true) else CleanupFailed
  {
    hide CommitAllowed, ValidPath, Extends, CleanupMarked, Mentions, Owned, Gone;
    MarkPaid(j, cancelled, cfg, base);
    var marked := MarkCancelled(j, cancelled).state;
    if Owned(j.live.kind, j.live.context) {
      assert (Answers(j.live) + rest.control)[2..] == rest.control;
      OwnedPaid(marked, cancelled, cfg, base);
    } else {
      assert Answers(j.live) + rest.control == rest.control;
      UnownedPaid(marked, cancelled, cfg, base);
    }
  }

  function EnterCleanup(j: Job, cfg: Config): JobResult<State> {
    if j.live.state == CleaningUp then Done(CleaningUp, j) else TransitAndCommit(j, CleaningUp, CleanupRequired, cfg.actor)
  }

  lemma EnterPaid(j: Job, cfg: Config, base: Path)
    requires At(j, j.live.state, cfg, base) && NeedsCleanup(j.live.state) && (j.live.state != CleaningUp ==> j.env.life >= 1)
    ensures var r := EnterCleanup(j, cfg);
            && r.Done? && At(r.state, CleaningUp, cfg, base)
            && r.state.env == Spent(j.env, 0, if j.live.state == CleaningUp then 0 else 1)
            && r.state.live == j.live.(state := r.state.live.state, revision := r.state.live.revision, audit := r.state.live.audit)
            && (Remembers(j.live) ==> Mentions(r.state.live.audit, CancellationRequested))
  {
    hide CommitAllowed, ValidPath, Extends, Mentions;
    PathSound(j.path, cfg.Limit());
    if j.live.state != CleaningUp { StepOn(j, CleaningUp, CleanupRequired, cfg.actor, cfg, base); }
    CancelledMentions(j, EnterCleanup(j, cfg).state, cfg, base);
    hide Sound;
  }

  // A row that needs cleanup and either proves its ownership or has attempts left gets through.
  lemma RetirePaid(j: Job, rest: Env, cfg: Config, base: Path)
    requires At(j, j.live.state, cfg, base) && NeedsCleanup(j.live.state) && Tranquil(rest)
    requires Owned(j.live.kind, j.live.context) || !LastAttempt(j.live, cfg.Limit())
    requires j.env == Enough(j.live, rest, cfg)
    ensures var r := Retire(j, cfg); r.Done? && r.value == PassValue(j.live) && r.state.env == rest
  {
    hide CommitAllowed, ValidPath, Extends, Cleanup, Mentions, Owned, TransitAndCommit, Gone;
    EnterPaid(j, cfg, base);
    assert j.env.control[0..] == j.env.control;
    CleanupPaid(EnterCleanup(j, cfg).state, Remembers(j.live), cfg, base, rest);
  }

  lemma PassPaid(path: Path, rest: Env, cfg: Config, base: Path)
    requires ValidPath(path, cfg.Limit()) && Extends(base, path) && NeedsCleanup(path.cell.row.state) && Tranquil(rest)
    requires Owned(path.cell.row.kind, path.cell.row.context) || !LastAttempt(path.cell.row, cfg.Limit())
    ensures var row := path.cell.row;
            var r := RunOnce(Job(path, row, Enough(row, rest, cfg)), cfg);
            r.Done? && r.value == PassValue(row) && r.state.env == rest
  {
    hide CommitAllowed, ValidPath, Extends, Owned, Enough, PassValue, Retire;
    var row := path.cell.row;
    var j := Job(path, row, Enough(row, rest, cfg));
    assert On(j, cfg, base);
    NoteOn(j, Entered, cfg, base);
    RetirePaid(Note(j, Entered), rest, cfg, base);
  }
}
