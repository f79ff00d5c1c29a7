/** Every pass of the coordinator, cut at any call or commit, follows the protocol. */
module CoordinatorFollows {
  import opened Wrappers
  import opened Lifecycle
  import opened Rows
  import opened Machine
  import opened Evidence
  import opened Protocol
  import opened Invariants
  import opened CoordinatorSpec
  import Scenarios

  /******* Moves *******/

  // One successful transition, whatever else changes in the row with it.
  ghost predicate Moves(r: Row, r': Row, target: State) {
    && Allowed(r.state, target) && r'.state == target && r'.revision == r.revision + 1
    && |r'.audit| == |r.audit| + 1 && r'.audit[..|r.audit|] == r.audit
    && var entry := r'.audit[|r.audit|];
       && entry == Transition(r.revision + 2, Some(r.state), target, entry.reason, entry.actor, r.revision + 1)
       && Explains(r.state, target, entry.reason)
  }

  lemma MoveConsistent(r: Row, r': Row, target: State)
    requires Consistent(r) && Moves(r, r', target)
    ensures Consistent(r')
  {
    var entry := r'.audit[|r.audit|];
    SwapKeepsLog(r.state, r, target, entry.reason, entry.actor, r.revision);
    assert r'.audit == r.audit + [entry];
  }

  lemma OneMove(r: Row, r': Row, target: State)
    requires Consistent(r) && Moves(r, r', target) && Route(r.state, target) == [target]
    ensures Follows(r, r')
  {
    MoveConsistent(r, r', target);
  }

  lemma TwoMoves(r: Row, mid: Row, r': Row, target: State)
    requires Consistent(r) && Moves(r, mid, mid.state) && Moves(mid, r', target)
    requires Route(r.state, target) == [mid.state, target]
    ensures Follows(r, r')
  {
    MoveConsistent(r, mid, mid.state);
    MoveConsistent(mid, r', target);
  }

  // Whatever else changes, the log is what matters.
  lemma SameLogFollows(r: Row, mid: Row, r': Row)
    requires Follows(r, mid) && r'.audit == mid.audit && r'.state == mid.state && r'.revision == mid.revision
    ensures Follows(r, r')
  {
    hide Route, Justified;
    var n, route := |r.audit|, Route(r.state, mid.state);
    forall i | 0 <= i < |route| ensures r'.audit[n + i].to == route[i] && Justified(r'.audit[n + i]) {
      assert mid.audit[n + i].to == route[i] && Justified(mid.audit[n + i]);
    }
  }

  /******* Jobs on the protocol *******/

  // Everything durable so far follows the protocol, and continues the path `base`.
  ghost predicate On(j: Job, cfg: Config, base: Path) {
    ValidPath(j.path, cfg.Limit()) && Extends(base, j.path)
  }

  // What is pending could be committed now.
  ghost predicate Committable(j: Job, cfg: Config) {
    CommitAllowed(j.Saved(), j.live, j.Log(), cfg.Limit())
  }

  lemma NoteOn(j: Job, e: Event, cfg: Config, base: Path)
    requires On(j, cfg, base) && EventAllowed(j.Saved(), j.Log(), e)
    ensures On(Note(j, e), cfg, base)
  {
  }

  lemma CommitOn(j: Job, cfg: Config, base: Path)
    requires On(j, cfg, base) && (j.Clean() || Committable(j, cfg))
    ensures var r := Commit(j); On(r.state, cfg, base) && !r.Raised? && (r.Done? ==> r.state.Clean())
  {
  }

  lemma CleanCommittable(j: Job, cfg: Config, base: Path)
    requires On(j, cfg, base) && j.Clean()
    ensures Sound(j.path.cell) && Committable(j, cfg)
  {
    PathSound(j.path, cfg.Limit());
  }

  lemma TransitMoves(j: Job, target: State, reason: Reason, actor: string)
    ensures var r := Transit(j, target, reason, actor);
            !r.Died? && (r.Done? <==> Allowed(j.live.state, target)) &&
            (r.Done? && Explains(j.live.state, target, reason) ==> Moves(j.live, r.state.live, target))
  {
  }

  // One transition from a clean job, committed.
  lemma StepOn(j: Job, target: State, reason: Reason, actor: string, cfg: Config, base: Path)
    requires On(j, cfg, base) && j.Clean() && Allowed(j.live.state, target)
    requires Route(j.live.state, target) == [target] && j.live.state != target
    requires MoveAllowed(j.Saved(), target, j.Log(), cfg.Limit()) && Explains(j.live.state, target, reason)
    requires target in {Passed, OperatorAttention, Cancelled} ==> j.live.state == Planned
    ensures var r := TransitAndCommit(j, target, reason, actor);
            On(r.state, cfg, base) && !r.Raised? &&
            (r.Done? ==> r.state.Clean() && r.value == target == r.state.live.state && r.state.Log() == j.Log() &&
                         r.state.live == CasTransition(j.live.state, j.live, target, reason, actor, j.live.revision).row &&
                         r.state.env == j.env.(life := j.env.life - 1))
  {
    hide ValidPath, Extends;
    CleanCommittable(j, cfg, base);
    TransitMoves(j, target, reason, actor);
    var moved := Transit(j, target, reason, actor).state;
    OneMove(j.live, moved.live, target);
    CommitOn(moved, cfg, base);
  }

  lemma SightedCommittable(j: Job, phase: Phase, sight: Sight, cfg: Config)
    requires Committable(j, cfg) && j.live.observations == j.Saved().observations
    requires PhaseAllowed(j.Saved(), j.live, phase)
    ensures Committable(Sighted(j, phase, sight), cfg)
  {
    SameLogFollows(j.Saved(), j.live, Sighted(j, phase, sight).live);
    hide Follows;
  }

  // An observation commits whatever is pending; without an observer nothing happens.
  lemma ObserveOn(j: Job, phase: Phase, cfg: Config, base: Path)
    requires On(j, cfg, base) && Committable(j, cfg) && j.live.observations == j.Saved().observations
    requires PhaseAllowed(j.Saved(), j.live, phase)
    ensures var r := Observe(j, phase, cfg);
            On(r.state, cfg, base) && !r.Raised? &&
            (r.Done? ==> r.state.Log() == j.Log() &&
                         r.state.live == j.live.(observations := r.state.live.observations) &&
                         if cfg.observed then r.state.Clean() else r.state == j)
  {
    hide CommitAllowed, ValidPath, Extends;
    if cfg.observed {
      var asked := AskSite(j);
      if asked.Done? {
        assert asked.state.path == j.path && asked.state.live == j.live;
        SightedCommittable(asked.state, phase, asked.value, cfg);
        CommitOn(Sighted(asked.state, phase, asked.value), cfg, base);
      }
    }
  }

  /******* Prepare *******/

  // A planned row whose move to preflight is still pending, or a clean row in preflight.
  ghost predicate Preparing(j: Job, cfg: Config, base: Path) {
    && On(j, cfg, base) && Committable(j, cfg) && j.live.state == State.Preflight
    && SameExperiment(j.Saved(), j.live)
    && (j.Clean() || (j.Saved().state == Planned && Moves(j.Saved(), j.live, State.Preflight)
                      && j.live == j.Saved().(state := j.live.state, revision := j.live.revision, audit := j.live.audit)))
  }

  lemma PreparingCommittable(j: Job, k: Job, target: State, cfg: Config, base: Path)
    requires Preparing(j, cfg, base) && !j.Clean() && target in {Injecting, Failed} && k.path == j.path
    requires MoveAllowed(j.Saved(), target, j.Log(), cfg.Limit()) && Moves(j.live, k.live, target)
    requires k.live == j.live.(state := k.live.state, revision := k.live.revision, audit := k.live.audit)
    ensures Committable(k, cfg)
  {
    PathSound(j.path, cfg.Limit());
    TwoMoves(j.Saved(), j.live, k.live, target);
    hide Follows, ValidPath, Extends, Justified;
  }

  lemma PreparingMove(j: Job, target: State, reason: Reason, cfg: Config, base: Path)
    requires Preparing(j, cfg, base) && target in {Injecting, Failed}
    requires MoveAllowed(j.Saved(), target, j.Log(), cfg.Limit()) && Explains(State.Preflight, target, reason)
    ensures var r := TransitAndCommit(j, target, reason, cfg.actor);
            On(r.state, cfg, base) && !r.Raised? &&
            (r.Done? ==> r.state.Clean() && r.value == target == r.state.live.state && r.state.Log() == j.Log() &&
                         SameExperiment(j.live, r.state.live))
  {
    hide ValidPath, Extends, Justified, Follows;
    if j.Clean() {
      StepOn(j, target, reason, cfg.actor, cfg, base);
    } else {
      TransitMoves(j, target, reason, cfg.actor);
      var moved := Transit(j, target, reason, cfg.actor).state;
      PreparingCommittable(j, moved, target, cfg, base);
      CommitOn(moved, cfg, base);
    }
  }

  lemma ObserveBefore(j: Job, cfg: Config, base: Path)
    requires Preparing(j, cfg, base)
    ensures var r := Observe(j, Before, cfg);
            On(r.state, cfg, base) && !r.Raised? &&
            (r.Done? ==> Preparing(r.state, cfg, base) && r.state.Log() == j.Log() && SameExperiment(j.live, r.state.live))
  {
    ObserveOn(j, Before, cfg, base);
    var r := Observe(j, Before, cfg);
    if r.Done? && cfg.observed { CleanCommittable(r.state, cfg, base); }
  }

  lemma ProbeOn(j: Job, cfg: Config, base: Path)
    requires Preparing(j, cfg, base) && Latest(j.Log(), Entered) && HasPreflight(j.live.kind)
    ensures var r := Scenarios.Preflight(j);
            On(r.state, cfg, base) && Preparing(r.state, cfg, base) && r.state.live == j.live &&
            (r.Done? ==> r.state.Log() == Logged(j.Log(), Probed(r.value)))
  {
    hide ValidPath, Extends;
    var asked := AskControl(j);
    assert asked.state == j.(env := asked.state.env);
    if asked.Done? {
      NoteOn(asked.state, Probed(BaselineOk(j.live.kind, j.live.parameters, asked.value)), cfg, base);
    }
  }

  lemma GateOn(j: Job, cfg: Config, base: Path)
    requires Preparing(j, cfg, base) && Baselined(j.live.kind, j.Log())
    ensures var r := AskGate(j);
            On(r.state, cfg, base) && Preparing(r.state, cfg, base) && r.state.live == j.live &&
            (r.Done? ==> r.state.Log() == Logged(j.Log(), Checked(r.value)))
  {
    hide ValidPath, Extends;
    var r := AskGate(j);
    if r.Done? { NoteOn(j.(env := r.state.env), Checked(r.value), cfg, base); }
  }

  // The rest of Prepare once the scenario's own preflight passed.
  lemma GatedOn(j: Job, cfg: Config, base: Path)
    requires Preparing(j, cfg, base) && Baselined(j.live.kind, j.Log())
    ensures var r := AfterProbe(j, cfg); On(r.state, cfg, base) && Prepared(r, cfg, base)
  {
    GateOn(j, cfg, base);
    var checked := AskGate(j);
    if checked.Done? {
      if !checked.value {
        PreparingMove(checked.state, Failed, PreflightRefused, cfg, base);
      } else {
        ObserveBefore(checked.state, cfg, base);
        var seen := Observe(checked.state, Before, cfg);
        if seen.Done? { PreparingMove(seen.state, Injecting, PreflightPassed, cfg, base); }
      }
    }
  }

  ghost predicate Prepared(r: JobResult<State>, cfg: Config, base: Path) {
    match r
    case Done(state, k) =>
      k.Clean() && state == k.live.state && state in {Injecting, Failed} &&
      (state == Injecting ==> Cleared(k.live.kind, k.Log()))
    case Raised(_, k) => Preparing(k, cfg, base)
    case Died(_, _) => true
  }

  lemma StartPreparing(j: Job, cfg: Config, base: Path)
    requires On(j, cfg, base) && j.Clean() && j.live.state in {Planned, State.Preflight}
    ensures var r := EnterPreflight(j, cfg);
            r.Done? && Preparing(r.state, cfg, base) && r.state.Log() == j.Log() && SameExperiment(j.live, r.state.live)
  {
    CleanCommittable(j, cfg, base);
    if j.live.state == Planned {
      TransitMoves(j, State.Preflight, PreflightStarted, cfg.actor);
      OneMove(j.live, Transit(j, State.Preflight, PreflightStarted, cfg.actor).state.live, State.Preflight);
    }
  }

  lemma PrepareOn(j: Job, cfg: Config, base: Path)
    requires On(j, cfg, base) && j.Clean() && j.live.state in {Planned, State.Preflight} && Latest(j.Log(), Entered)
    ensures var r := Prepare(j, cfg); On(r.state, cfg, base) && Prepared(r, cfg, base)
  {
    hide CommitAllowed, ValidPath, Extends, Moves, AfterProbe, TransitAndCommit, Transit, Scenarios.Preflight;
    StartPreparing(j, cfg, base);
    var k := EnterPreflight(j, cfg).state;
    if ParametersAccepted(k.live.kind, k.live.parameters) {
      if HasPreflight(k.live.kind) {
        ProbeOn(k, cfg, base);
        var probed := Scenarios.Preflight(k);
        if probed.Done? {
          if probed.value { GatedOn(probed.state, cfg, base); }
          else { PreparingMove(probed.state, Failed, PreflightRefused, cfg, base); }
        }
      } else {
        GatedOn(k, cfg, base);
      }
    }
  }
}
