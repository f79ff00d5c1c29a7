/** Runs that reach each of the conditions the failing properties speak of. Every one of them starts
    from an empty database and uses one experiment. */
module Witnesses {
  import opened Wrappers
  import opened Lifecycle
  import opened Rows
  import opened Machine
  import opened Evidence
  import opened Protocol
  import opened Invariants
  import opened Safety
  import opened CoordinatorSpec
  import opened CoordinatorFollows
  import opened CleanupFollows
  import opened Convergence
  import opened Cancellation
  import opened Outcomes
  import opened Passable
  import opened SupervisorSpec
  import opened SupervisorFollows
  import opened Runs
  import opened Blocked
  import opened Drain
  import opened Turns
  import opened Starvation
  import opened Lasting
  import opened Aspects
  import opened Restart
  import opened Stranded
  import Scenarios

  /******* One experiment in the database *******/

  function Begin(parameters: Parameters): Op { Op.Schedule(0, ApacheStop, parameters, 0, 0, 60, "operator") }

  function First(parameters: Parameters): Row { NewRow(ApacheStop, parameters, 0, 0, 60, "operator") }

  const GOOD := Parameters(60, 0, 0)
  const BAD := Parameters(0, 0, 0)

  lemma Begun(parameters: Parameters, p: Policy)
    ensures Run([Begin(parameters)], p) == World(map[0 := Born(Cell(First(parameters), Silent))], [0], [], false, 0)
  {
    assert [Begin(parameters)][..0] == [];
    assert Insert(EMPTY, [], 0, 0) == [0];
  }

  lemma RunLonger(ops: seq<Op>, op: Op, p: Policy)
    ensures Run(ops + [op], p) == Apply(Run(ops, p), op, p)
  {
    assert (ops + [op])[..|ops|] == ops;
  }

  ghost predicate Alone(w: World) { w.listing == [0] && w.paths.Keys == {0} }

  // Claimed and renewed at the same moment.
  function Claimed(j: Job, instance: Instance, now: int, p: Policy): Job
    requires j.env.life >= 2
  {
    var row := ClaimRow(j.live, instance, now, p.leaseSeconds);
    Job(Extended(j.path, row), row, j.env.(life := j.env.life - 2))
  }

  lemma ClaimRuns(j: Job, instance: Instance, p: Policy)
    requires At(j, j.live.state, p.coordinator, j.path) && j.env.life >= 2 && j.env.advances == []
    ensures var k := Claimed(j, instance, j.env.now, p);
            && RunClaimed(j, instance, j.env.now, p) == Finally(Launch(k, p.coordinator), instance)
            && At(k, j.live.state, p.coordinator, j.path) && At(k, j.live.state, p.coordinator, k.path)
  {
    hide CommitAllowed, ValidPath, Extends, Launch;
    var claiming := j.(live := ClaimRow(j.live, instance, j.env.now, p.leaseSeconds));
    LeaseOn(j, claiming, p.coordinator, j.path);
    Reflexive(Claimed(j, instance, j.env.now, p), p.coordinator, j.path);
  }

  // With no request and nothing to reconcile, a tick is one claimed pass over the only experiment.
  lemma TickRuns(w: World, env: Env, p: Policy)
    requires WorldValid(w, p) && Alone(w) && w.requests == []
    requires w.reconciled || w.Row(0).state in {Planned, State.Preflight, Active}
    requires Claimable(w.Row(0).state) && LeaseFree(w.Row(0), env.now) && env.advances == []
    ensures var s := Sys(w.(reconciled := true), env);
            var run := RunClaimed(JobFor(s, 0), w.instance, env.now, p);
            && Tick(Sys(w, env), p).state == Merge(s, 0, run.state)
            && (Tick(Sys(w, env), p).Died? <==> run.Died?)
  {
    hide RunClaimed, ValidPath;
    NothingToReconcile(Sys(w, env), p.coordinator);
    var s := Sys(w.(reconciled := true), env);
    assert Reconcile(Sys(w, env), p.coordinator) == Done([], s);
    assert DrainFrom(s, 0) == Done((), s);
    ClaimServes(s, p);
    assert FirstCandidate(w, [0], env.now) == Some(0) && FirstCandidate(s.world, s.world.listing, env.now) == Some(0);
    hide Reconcile, DrainFrom, ClaimAndRun;
  }

  lemma NothingToReconcile(s: Sys, cfg: Config)
    requires Alone(s.world) && s.world.Indexed()
    requires s.world.reconciled || s.world.Row(0).state in {Planned, State.Preflight, Active}
    ensures Reconcile(s, cfg) == Done([], Sys(s.world.(reconciled := true), s.env))
  {
    hide Launch;
    if !s.world.reconciled {
      assert [0][1..] == [];
      assert ActiveIds(s.world, []) == [];
      assert ActiveIds(s.world, [0]) == [0];
      assert ReconcileRow(JobFor(s, 0), cfg) == Done([], JobFor(s, 0));
      assert Merge(s, 0, JobFor(s, 0)) == s;
      var none: seq<State> := [];
      assert ReconcileAll(s, [], cfg) == Done(none, s) && none + none == none;
      assert Lift(s, 0, ReconcileRow(JobFor(s, 0), cfg)) == Done(none, s);
      assert ReconcileAll(s, [0], cfg) == Done(none, s);
    }
  }

  /******* A row in preflight with its cancellation pending *******/

  // The job of the first claimed pass of a fresh experiment.
  function FirstJob(parameters: Parameters, env: Env, p: Policy): Job
    requires env.life >= 2
  {
    Claimed(Job(Born(Cell(First(parameters), Silent)), First(parameters), env), 0, env.now, p)
  }

  lemma FirstTick(parameters: Parameters, env: Env, p: Policy)
    requires env.life >= 2 && env.advances == []
    ensures var w := Run([Begin(parameters), TickWith(env)], p);
            var k := FirstJob(parameters, env, p);
            var run := Finally(Launch(k, p.coordinator), 0);
            && WorldValid(w, p) && Alone(w) && w.requests == [] && w.reconciled == !run.Died?
            && w.paths[0] == run.state.path && At(k, Planned, p.coordinator, k.path)
            && (w.instance == if run.Died? then 1 else 0)
  {
    hide ValidPath, CommitAllowed, Extends, Launch, First;
    var w0 := Run([Begin(parameters)], p);
    Begun(parameters, p);
    EveryRunFollows([Begin(parameters)], p);
    EveryRunFollows([Begin(parameters), TickWith(env)], p);
    RunLonger([Begin(parameters)], TickWith(env), p);
    assert [Begin(parameters)] + [TickWith(env)] == [Begin(parameters), TickWith(env)];
    FirstRow(parameters);
    TickRuns(w0, env, p);
    JobOnPath(w0.paths[0], env, p.coordinator);
    ClaimRuns(Job(w0.paths[0], w0.Row(0), env), 0, p);
    hide Finally, Claimed, Run, Tick;
  }

  lemma FirstRow(parameters: Parameters)
    ensures var row := First(parameters);
            && row.state == Planned && row.owner.None? && row.kind == ApacheStop && row.parameters == parameters
            && row.context.None? && row.attempts == [] && row.outcome.None? && row.expiresAt == 60
            && row.observations == []
  {
  }

  const SHORT := Env([], [], [], 0, [], 3)

  lemma RefusedParameters(p: Policy)
    ensures var w := Run([Begin(BAD), TickWith(SHORT)], p);
            && WorldValid(w, p) && Alone(w) && w.reconciled && w.requests == []
            && w.Row(0).state == State.Preflight && w.Row(0).owner.None? && w.Row(0).kind == ApacheStop
            && w.Row(0).parameters == BAD
  {
    hide ValidPath, CommitAllowed, Extends, Run, Launch;
    FirstTick(BAD, SHORT, p);
    var k := FirstJob(BAD, SHORT, p);
    RaisesAtOnce(k, p.coordinator);
  }

  lemma RaisesAtOnce(j: Job, cfg: Config)
    requires j.live.state == Planned && j.live.kind == ApacheStop && j.live.parameters == BAD
    ensures Launch(j, cfg) == Raised(InvalidParameters, EnterPreflight(Note(j, Entered), cfg).state)
  {
  }

  const CANCEL := Ask(0, true, "operator", "key")

  // Scheduled with parameters out of bounds, ticked once, cancelled: the next ticks raise.
  lemma PreflightCancelReached(p: Policy)
    ensures var w := Run([Begin(BAD), TickWith(SHORT), CANCEL], p);
            && w.Indexed() && w.reconciled && 0 in w.paths && w.Row(0).state == State.Preflight && CancelPending(w, 0, 0)
            && forall env :: Tick(Sys(w, env), p) == Raised(TransitionNotAllowed, Sys(w, env))
  {
    hide ValidPath, Tick, Extends;
    var earlier := [Begin(BAD), TickWith(SHORT)];
    RefusedParameters(p);
    RunLonger(earlier, CANCEL, p);
    assert earlier + [CANCEL] == [Begin(BAD), TickWith(SHORT), CANCEL];
    var w := Run([Begin(BAD), TickWith(SHORT), CANCEL], p);
    assert w.requests == [Request(0, true, "operator", "key", true)];
    PendingHere(w, 0, 0);
    forall env ensures Tick(Sys(w, env), p) == Raised(TransitionNotAllowed, Sys(w, env)) {
      PreflightCancelBlocksTicks(Sys(w, env), p, 0);
    }
  }

  // The same row, not cancelled, starves whatever is scheduled after it.
  lemma StarvationReached(p: Policy)
    ensures Starving(Run([Begin(BAD), TickWith(SHORT)], p), p, 0)
  {
    hide ValidPath, Tick, Extends;
    RefusedParameters(p);
    EveryRunListsInOrder([Begin(BAD), TickWith(SHORT)], p);
  }

  /******* A lost injection with one attempt left *******/

  // A baseline Apache accepts.
  const HEALTHY := Reading(true, true, true, false, false, false, 0, 0, 0)

  // The process dies as inject is called.
  function Lose(p: Policy): Env { Env([Reply(HEALTHY)], [Verdict(true)], [], 0, [], 2 + PrepareCost(p.coordinator)) }

  // A restart that records one more refused cleanup, and another restart.
  const AGAIN := Env([], [], [], 0, [], 4)

  function LostOps(attempts: nat, p: Policy): seq<Op> {
    if attempts == 0 then [Begin(GOOD), TickWith(Lose(p))] else LostOps(attempts - 1, p) + [TickWith(AGAIN), Restart]
  }

  ghost predicate LostAlone(w: World, attempts: nat, p: Policy) {
    && WorldValid(w, p) && Alone(w) && !w.reconciled && w.requests == []
    && w.Row(0).kind == ApacheStop && !Owned(ApacheStop, w.Row(0).context) && |w.Row(0).attempts| == attempts
    && w.Row(0).state in {Injecting, CleanupFailed} && !Mentions(w.Row(0).audit, CancellationRequested)
  }

  lemma InjectionLost(p: Policy)
    ensures LostAlone(Run(LostOps(0, p), p), 0, p)
  {
    hide ValidPath, CommitAllowed, Extends, Run, Launch, PrepareCost;
    FirstTick(GOOD, Lose(p), p);
    DiesInInject(FirstJob(GOOD, Lose(p), p), p.coordinator);
  }

  lemma DiesInInject(j: Job, cfg: Config)
    requires At(j, Planned, cfg, j.path) && j.live.kind == ApacheStop && j.live.parameters == GOOD
    requires j.live.context.None? && j.live.attempts == []
    requires j.env == Env([Reply(HEALTHY)], [Verdict(true)], [], 0, [], PrepareCost(cfg))
    ensures var r := Launch(j, cfg);
            && r.Died? && r.state.Saved().state == Injecting && r.state.Saved().kind == ApacheStop
            && r.state.Saved().context.None? && r.state.Saved().attempts == []
            && !Mentions(r.state.Saved().audit, CancellationRequested)
  {
    hide CommitAllowed, ValidPath, Extends, Prepare;
    var entered := Note(j, Entered);
    NoteOn(j, Entered, cfg, j.path);
    PrepareClears(entered, cfg, j.path, HEALTHY);
    PathOrigin(Prepare(entered, cfg).state.path, cfg.Limit());
    hide Mentions;
  }

  lemma ReconcileAsks(j: Job, cfg: Config)
    requires Kept(j, NeverAsked)
    ensures Shows(ReconcileRow(j, cfg).state.Saved(), NeverAsked)
  {
    hide Shows, Launch, TransitAndCommit;
    StepKept(j, CleaningUp, RestartUncertainInjection, cfg.actor, NeverAsked);
    var moved := if j.live.state == Injecting then TransitAndCommit(j, CleaningUp, RestartUncertainInjection, cfg.actor)
                 else Done(j.live.state, j);
    LaunchLeft(moved.state, cfg, NeverAsked);
  }

  lemma AgainIsEnough(path: Path, cfg: Config)
    requires ValidPath(path, cfg.Limit()) && path.cell.row.kind == ApacheStop && !Owned(ApacheStop, path.cell.row.context)
    requires path.cell.row.state in {Injecting, CleanupFailed} && !Mentions(path.cell.row.audit, CancellationRequested)
    ensures AGAIN == RowEnough(path.cell.row, NOTHING, cfg)
  {
    PathSound(path, cfg.Limit());
    hide ValidPath, Mentions;
  }

  // What the restart makes of the lost injection.
  lemma LostRow(path: Path, attempts: nat, cfg: Config)
    requires ValidPath(path, cfg.Limit()) && path.cell.row.kind == ApacheStop && !Owned(ApacheStop, path.cell.row.context)
    requires path.cell.row.state in {Injecting, CleanupFailed} && !Mentions(path.cell.row.audit, CancellationRequested)
    requires |path.cell.row.attempts| == attempts && attempts + 1 < cfg.Limit()
    ensures var r := ReconcileRow(Job(path, path.cell.row, AGAIN), cfg);
            var row := r.state.Saved();
            && r.Done? && r.state.env == NOTHING && row.state == CleanupFailed && |row.attempts| == attempts + 1
            && !Owned(row.kind, row.context) && row.kind == ApacheStop && !Mentions(row.audit, CancellationRequested)
  {
    hide ValidPath, CommitAllowed, Extends, ReconcileRow, Owned, RowEnough, Mentions;
    var j := Job(path, path.cell.row, AGAIN);
    JobOnPath(path, AGAIN, cfg);
    AgainIsEnough(path, cfg);
    RowPaid(path, NOTHING, cfg);
    RestartMatrix(j, cfg);
    UnownedRow(j, cfg);
    ReconcileAsks(j, cfg);
    ReconcileRowOn(j, cfg, path);
    PathKeepsIdentity(path, ReconcileRow(j, cfg).state.path, cfg.Limit());
  }

  lemma RestartTick(w: World, p: Policy)
    requires WorldValid(w, p) && Alone(w) && !w.reconciled && w.requests == [] && !Terminal(w.Row(0).state)
    requires var r := ReconcileRow(JobFor(Sys(w, AGAIN), 0), p.coordinator); r.Done? && r.state.env == NOTHING
    ensures var r := ReconcileRow(JobFor(Sys(w, AGAIN), 0), p.coordinator);
            var w' := Tick(Sys(w, AGAIN), p).state.world;
            Alone(w') && w'.paths[0] == r.state.path && w'.requests == []
  {
    hide ValidPath, ReconcileRow, Launch;
    var s := Sys(w, AGAIN);
    var r := ReconcileRow(JobFor(s, 0), p.coordinator);
    assert [0][1..] == [];
    assert ActiveIds(w, []) == [];
    assert ActiveIds(w, [0]) == [0];
    var t := Merge(s, 0, r.state);
    var none: seq<State> := [];
    assert ReconcileAll(t, [], p.coordinator) == Done(none, t);
    assert ReconcileAll(s, [0], p.coordinator).Done? && ReconcileAll(s, [0], p.coordinator).state == t;
    var u := Sys(t.world.(reconciled := true), NOTHING);
    assert Reconcile(s, p.coordinator).state == u;
    assert DrainFrom(u, 0) == Done((), u);
    ClaimServes(u, p);
    hide Reconcile, ReconcileAll, DrainFrom, ClaimAndRun, FirstCandidate;
  }

  lemma LostAgain(w: World, attempts: nat, p: Policy)
    requires LostAlone(w, attempts, p) && attempts + 1 < p.coordinator.Limit()
    ensures LostAlone(Apply(Apply(w, TickWith(AGAIN), p), Restart, p), attempts + 1, p)
  {
    hide ValidPath, CommitAllowed, Extends, ReconcileRow, Owned, Tick, Mentions;
    ApplyValid(w, TickWith(AGAIN), p);
    ApplyValid(Apply(w, TickWith(AGAIN), p), Restart, p);
    LostRow(w.paths[0], attempts, p.coordinator);
    RestartTick(w, p);
  }

  lemma {:induction false} LostAfter(attempts: nat, p: Policy)
    requires attempts < p.coordinator.Limit()
    ensures LostAlone(Run(LostOps(attempts, p), p), attempts, p)
  {
    hide LostAlone, Apply;
    if attempts == 0 {
      InjectionLost(p);
    } else {
      var earlier := LostOps(attempts - 1, p);
      LostAfter(attempts - 1, p);
      LostAgain(Run(earlier, p), attempts - 1, p);
      RunLonger(earlier, TickWith(AGAIN), p);
      RunLonger(earlier + [TickWith(AGAIN)], Restart, p);
      assert earlier + [TickWith(AGAIN)] + [Restart] == LostOps(attempts, p);
    }
  }

  // With any number of attempts: a crash during inject, and as many restarts as attempts but one.
  lemma BlockedReached(p: Policy)
    ensures BlockedBy(Run(LostOps(p.coordinator.Limit() - 1, p), p), 0, p.coordinator.Limit())
  {
    hide ValidPath, Owned, Mentions, Run;
    LostAfter(p.coordinator.Limit() - 1, p);
    EveryRunListsInOrder(LostOps(p.coordinator.Limit() - 1, p), p);
  }

  /******* A row in verifying *******/

  const STOPPED := Reading(true, true, false, true, false, false, 0, 0, 0)

  // Injected, not confirmed, cleaned up, and dead before the verdict.
  const NINETEEN := Env([Reply(HEALTHY), Reply(STOPPED), Reply(HEALTHY), Reply(Gone(ApacheStop)), Reply(Gone(ApacheStop))],
                        [Verdict(true)], [], 0, [], 19)

  lemma DiesInVerifying(j: Job, cfg: Config)
    requires At(j, Planned, cfg, j.path) && cfg.observed
    requires j.live.kind == ApacheStop && j.live.parameters == GOOD && j.live.outcome.None?
    requires j.env == NINETEEN.(life := 17)
    ensures var r := Launch(j, cfg); r.Died? && r.state.Saved().state == Verifying
  {
    hide CommitAllowed, ValidPath, Extends, Prepare, Inject, CleanupMarked;
    var entered := Note(j, Entered);
    NoteOn(j, Entered, cfg, j.path);
    PrepareClears(entered, cfg, j.path, HEALTHY);
    var prepared := Prepare(entered, cfg).state;
    InjectOn(prepared, cfg, j.path);
    InjectUncertain(prepared, cfg, STOPPED, HEALTHY);
    var cleaning := Inject(prepared, cfg).state;
    assert RunOnce(j, cfg) == CleanupMarked(cleaning, false, cfg);
    Reflexive(cleaning, cfg, j.path);
    MarkedDies(cleaning, cfg);
  }

  lemma MarkedDies(j: Job, cfg: Config)
    requires At(j, CleaningUp, cfg, j.path) && cfg.observed && Owned(j.live.kind, j.live.context) && Tranquil(j.env)
    requires j.env.life == 7 && j.env.control == [Reply(Gone(j.live.kind)), Reply(Gone(j.live.kind))]
    ensures var r := CleanupMarked(j, false, cfg); r.Died? && r.state.Saved().state == Verifying
  {
    hide CommitAllowed, ValidPath, Extends, AttemptCleanup, Conclude, Owned, Gone;
    AttemptOn(j, cfg, j.path);
    AttemptAnswered(j);
    DeathBeforeVerdict(AttemptCleanup(j).state, false, cfg);
  }

  lemma VerifyingReached(p: Policy)
    requires p.coordinator.observed
    ensures var w := Run([Begin(GOOD), TickWith(NINETEEN)], p); 0 in w.paths && w.Row(0).state == Verifying
  {
    hide ValidPath, CommitAllowed, Extends, Run, Launch;
    FirstTick(GOOD, NINETEEN, p);
    DiesInVerifying(FirstJob(GOOD, NINETEEN, p), p.coordinator);
  }

  // Some run leaves some row in verifying exactly under a policy with an observer.
  lemma VerifyingReachedExactly(p: Policy)
    ensures (exists ops, id :: id in Run(ops, p).paths && Run(ops, p).Row(id).state == Verifying) <==> p.coordinator.observed
  {
    hide Run;
    if p.coordinator.observed {
      VerifyingReached(p);
    } else {
      forall ops, id | id in Run(ops, p).paths ensures Run(ops, p).Row(id).state != Verifying {
        UnobservedNeverVerifies(ops, p, id);
      }
    }
  }

  /******* A cancellation whose mark was lost *******/

  const ACTIVATE := Env([Reply(HEALTHY), Reply(STOPPED), Reply(STOPPED)], [Verdict(true)], [], 0, [], 30)

  lemma InjectConfirmed(j: Job, cfg: Config, injected: Reading, seen: Reading)
    requires j.live.state == Injecting && ParametersAccepted(j.live.kind, j.live.parameters) && HasVerifyActive(j.live.kind)
    requires j.env.control == [Reply(injected), Reply(seen)] && j.env.life >= 5
    requires InjectionProved(j.live.kind, injected) && EffectActive(j.live.kind, seen)
    ensures var r := Inject(j, cfg);
            && r.Done? && r.value == Active && r.state.live.state == Active
            && r.state.env == j.env.(control := [], life := j.env.life - 5) && r.state.live.expiresAt == j.live.expiresAt
            && r.state.live.kind == j.live.kind
  {
    hide ParametersAccepted, InjectionProved, EffectActive, InjectionContext;
    var proved := Scenarios.Inject(j);
    assert proved.Done? && proved.state.live == j.live && proved.state.env == j.env.(control := [Reply(seen)], life := j.env.life - 2);
    var saved := Commit(proved.state.(live := proved.state.live.(context := Some(proved.value))));
    var confirmed := Scenarios.VerifyActive(saved.state);
    assert confirmed.Done? && confirmed.value && confirmed.state.live == saved.state.live;
    assert TryInject(j, cfg) == TransitAndCommit(confirmed.state, Active, InjectionVerified, cfg.actor);
  }

  lemma BecomesActive(j: Job, cfg: Config)
    requires At(j, Planned, cfg, j.path) && j.live.kind == ApacheStop && j.live.parameters == GOOD && j.live.expiresAt == 60
    requires j.env == ACTIVATE.(life := 28)
    ensures var r := Launch(j, cfg);
            r.Done? && r.state.live.state == Active && r.state.live.kind == ApacheStop && r.state.env.life >= 1
  {
    hide CommitAllowed, ValidPath, Extends, Prepare, Inject, Observe;
    var entered := Note(j, Entered);
    NoteOn(j, Entered, cfg, j.path);
    PrepareClears(entered, cfg, j.path, HEALTHY);
    var prepared := Prepare(entered, cfg).state;
    InjectOn(prepared, cfg, j.path);
    InjectConfirmed(prepared, cfg, STOPPED, STOPPED);
    var active := Inject(prepared, cfg).state;
    ObserveUnseen(active, During, cfg);
    assert Attend(active, cfg).Done? && Attend(active, cfg).state.live.state == Active;
  }

  lemma ActiveReached(p: Policy)
    ensures var w := Run([Begin(GOOD), TickWith(ACTIVATE)], p);
            && WorldValid(w, p) && Alone(w) && w.reconciled && w.requests == []
            && w.Row(0).state == Active && w.Row(0).owner.None? && w.Row(0).kind == ApacheStop
  {
    hide ValidPath, CommitAllowed, Extends, Run, Launch;
    FirstTick(GOOD, ACTIVATE, p);
    var k := FirstJob(GOOD, ACTIVATE, p);
    BecomesActive(k, p.coordinator);
    LaunchLeft(k, p.coordinator, HeldBy(Some(0), k.live.leaseUntil));
  }

  // The cancellation is taken up, and the process dies as it is about to remember it.
  const FIVE := Env([], [], [], 0, [], 5)

  lemma CancelTaken(j: Job, requester: string, cfg: Config)
    requires At(j, Active, cfg, j.path) && j.env == FIVE && j.live.owner.None?
    ensures var r := CancelRow(j, requester);
            && r == Done((), r.state) && At(r.state, CancellationRequested, cfg, r.state.path) && r.state.live.owner.None?
            && r.state.env == FIVE.(life := 4) && r.state.live.kind == j.live.kind
  {
    hide CommitAllowed, ValidPath, Extends;
    StepOn(j, CancellationRequested, AbortRequested, requester, cfg, j.path);
    Reflexive(CancelRow(j, requester).state, cfg, j.path);
  }

  lemma DiesUnmarked(j: Job, cfg: Config)
    requires At(j, CancellationRequested, cfg, j.path) && j.env == FIVE.(life := 1) && !j.live.kind.Unlisted?
    ensures var r := Launch(j, cfg); r.Died? && r.place == AtCommit && Unmarked(r.state.path.cell)
  {
    hide CommitAllowed, ValidPath, Extends, TransitAndCommit, Mentions;
    var entered := Note(j, Entered);
    NoteOn(j, Entered, cfg, j.path);
    EnterPaid(entered, cfg, j.path);
    NotYetMarked(j.path, cfg);
  }

  lemma NotYetMarked(path: Path, cfg: Config)
    requires ValidPath(path, cfg.Limit()) && path.cell.row.state == CancellationRequested
    ensures path.cell.row.outcome == None
  {
    OutcomeMatchesState(path, cfg.Limit());
    hide ValidPath;
  }

  lemma CancelTick(w: World, requester: string, key: string, p: Policy)
    requires WorldValid(w, p) && Alone(w) && w.reconciled && w.requests == [Request(0, true, requester, key, true)]
    requires w.Row(0).state == Active && w.Row(0).owner.None?
    ensures var c := CancelRow(JobFor(Sys(w, FIVE), 0), requester).state;
            var j := Job(c.path, c.live, FIVE.(life := 3));
            Tick(Sys(w, FIVE), p).state.world.paths[0] == RunClaimed(j, w.instance, 0, p).state.path
  {
    hide ValidPath, CommitAllowed, CancelRow, RunClaimed, Extends;
    var s := Sys(w, FIVE);
    JobOnPath(w.paths[0], FIVE, p.coordinator);
    CancelTaken(JobFor(s, 0), requester, p.coordinator);
    var c := CancelRow(JobFor(s, 0), requester);
    var t := Merge(s, 0, c.state);
    assert Lift(s, 0, c) == Done((), t);
    var u := Sys(t.world.(requests := [Request(0, true, requester, key, false)]), FIVE.(life := 3));
    assert t.world.requests[0 := t.world.requests[0].(pending := false)] == u.world.requests;
    assert CompleteRequest(t, 0) == Done((), u);
    assert DrainOne(s, 0) == Done((), u);
    assert DrainFrom(u, 1) == Done((), u);
    assert DrainFrom(s, 0) == Done((), u);
    assert FirstCandidate(u.world, u.world.listing, 0) == Some(0);
    ClaimServes(u, p);
    hide DrainFrom, ClaimAndRun, DrainOne, FirstCandidate;
  }

  lemma UnmarkedReached(p: Policy)
    ensures var w := Run([Begin(GOOD), TickWith(ACTIVATE), CANCEL, TickWith(FIVE)], p); 0 in w.paths && Unmarked(w.paths[0].cell)
  {
    hide ValidPath, CommitAllowed, Extends, Tick, Launch, RunClaimed, CancelRow, Unmarked;
    var active := [Begin(GOOD), TickWith(ACTIVATE)];
    ActiveReached(p);
    RunLonger(active, CANCEL, p);
    var w := Run(active + [CANCEL], p);
    RunLonger(active + [CANCEL], TickWith(FIVE), p);
    assert active + [CANCEL] + [TickWith(FIVE)] == [Begin(GOOD), TickWith(ACTIVATE), CANCEL, TickWith(FIVE)];
    EveryRunFollows(active + [CANCEL], p);
    assert w.requests == [Request(0, true, "operator", "key", true)];
    CancelTick(w, "operator", "key", p);
    JobOnPath(w.paths[0], FIVE, p.coordinator);
    CancelTaken(JobFor(Sys(w, FIVE), 0), "operator", p.coordinator);
    var c := CancelRow(JobFor(Sys(w, FIVE), 0), "operator").state;
    var j := Job(c.path, c.live, FIVE.(life := 3));
    ClaimRuns(j, w.instance, p);
    DiesUnmarked(Claimed(j, w.instance, 0, p), p.coordinator);
  }
}
