/** Every tick of every supervisor process keeps every experiment on the protocol, so whatever
    holds of valid paths holds in every run. */
module SupervisorFollows {
  import opened Wrappers
  import opened Lifecycle
  import opened Rows
  import opened Machine
  import opened Protocol
  import opened Invariants
  import opened CoordinatorSpec
  import opened CoordinatorFollows
  import opened CleanupFollows
  import opened SupervisorSpec
  import opened Safety

  /******* One row *******/

  lemma LaunchOn(j: Job, cfg: Config, base: Path)
    requires At(j, j.live.state, cfg, base) && Claimable(j.live.state)
    ensures var r := Launch(j, cfg);
            && On(r.state, cfg, base)
            && (r.Done? ==> r.state.Clean()) && (r.Raised? ==> r.state.Clean() || Committable(r.state, cfg))
            && (r.Raised? && NeedsCleanup(j.live.state) ==> r.state.Clean())
  {
    hide CommitAllowed, ValidPath, Extends;
    if !j.live.kind.Unlisted? {
      RunOnceOn(j, cfg, base);
      if NeedsCleanup(j.live.state) { RetireOnlyOn(j, cfg, base); }
    }
  }

  // A row that needs cleanup never goes through preflight again, so a pass that raises leaves
  // nothing pending.
  lemma RetireOnlyOn(j: Job, cfg: Config, base: Path)
    requires At(j, j.live.state, cfg, base) && NeedsCleanup(j.live.state)
    ensures var r := RunOnce(j, cfg); !r.Died? ==> r.state.Clean()
  {
    hide CommitAllowed, ValidPath, Extends;
    var entered := Note(j, Entered);
    NoteOn(j, Entered, cfg, base);
    RetireOn(entered, cfg, base);
    RetireClean(entered, cfg, base);
  }

  lemma RetireClean(j: Job, cfg: Config, base: Path)
    requires At(j, j.live.state, cfg, base) && NeedsCleanup(j.live.state)
    ensures var r := Retire(j, cfg); !r.Died? ==> r.state.Clean()
  {
    hide CommitAllowed, ValidPath, Extends;
    var state := j.live.state;
    PathSound(j.path, cfg.Limit());
    var entered := if state == CleaningUp then Done(state, j)
                   else TransitAndCommit(j, CleaningUp, CleanupRequired, cfg.actor);
    if state != CleaningUp { StepOn(j, CleaningUp, CleanupRequired, cfg.actor, cfg, base); }
    if entered.Done? {
      CancelledMentions(j, entered.state, cfg, base);
      CleanupOn(entered.state, state == CancellationRequested || entered.state.live.outcome == Some(CancelledPending), cfg, base);
    }
  }

  lemma ReconcileRowOn(j: Job, cfg: Config, base: Path)
    requires At(j, j.live.state, cfg, base)
    ensures var r := ReconcileRow(j, cfg); On(r.state, cfg, base) && (!r.Died? ==> r.state.Clean())
  {
    hide CommitAllowed, ValidPath, Extends;
    if j.live.state == Injecting { StepOn(j, CleaningUp, RestartUncertainInjection, cfg.actor, cfg, base); }
    var moved := if j.live.state == Injecting then TransitAndCommit(j, CleaningUp, RestartUncertainInjection, cfg.actor)
                 else Done(j.live.state, j);
    if moved.Done? && NeedsCleanup(moved.value) { LaunchOn(moved.state, cfg, base); }
  }

  lemma CancelRowOn(j: Job, requester: string, cfg: Config, base: Path)
    requires At(j, j.live.state, cfg, base)
    ensures var r := CancelRow(j, requester); On(r.state, cfg, base) && (!r.Died? ==> r.state.Clean())
  {
    hide CommitAllowed, ValidPath, Extends;
    var target := CancelTarget(j.live.state);
    if !Terminal(j.live.state) {
      if target.Some? && Allowed(j.live.state, target.value) {
        StepOn(j, target.value, AbortRequested, requester, cfg, base);
      } else if target.None? {
        CommitOn(j, cfg, base);
      }
    }
  }

  lemma LeaseCommittable(j: Job, k: Job, cfg: Config, base: Path)
    requires On(j, cfg, base) && (j.Clean() || Committable(j, cfg))
    requires k.path == j.path && k.live == j.live.(owner := k.live.owner, leaseUntil := k.live.leaseUntil)
    ensures Committable(k, cfg)
  {
    if j.Clean() { CleanCommittable(j, cfg, base); }
    SameLogFollows(j.Saved(), j.live, k.live);
    hide Follows;
  }

  lemma LeaseOn(j: Job, k: Job, cfg: Config, base: Path)
    requires On(j, cfg, base) && (j.Clean() || Committable(j, cfg))
    requires k.path == j.path && k.live == j.live.(owner := k.live.owner, leaseUntil := k.live.leaseUntil)
    ensures var r := Commit(k);
            On(r.state, cfg, base) && !r.Raised? && (r.Done? ==> r.state.Clean() && r.state.live == k.live)
  {
    hide CommitAllowed, ValidPath, Extends;
    LeaseCommittable(j, k, cfg, base);
    CommitOn(k, cfg, base);
  }

  lemma RunClaimedOn(j: Job, instance: Instance, now: int, p: Policy, base: Path)
    requires At(j, j.live.state, p.coordinator, base) && Claimable(j.live.state)
    ensures var r := RunClaimed(j, instance, now, p);
            On(r.state, p.coordinator, base) && (!r.Died? ==> r.state.Clean())
  {
    hide CommitAllowed, ValidPath, Extends;
    var cfg := p.coordinator;
    var claiming := j.(live := ClaimRow(j.live, instance, now, p.leaseSeconds));
    LeaseOn(j, claiming, cfg, base);
    var claimed := Commit(claiming);
    if claimed.Done? {
      var clock := ReadClock(claimed.state);
      var renewing := clock.1.(live := RenewRow(clock.1.live, instance, clock.0, p.leaseSeconds));
      LeaseOn(clock.1, renewing, cfg, base);
      var renewed := Commit(renewing);
      if renewed.Done? {
        LaunchOn(renewed.state, cfg, base);
        var launched := Launch(renewed.state, cfg);
        if !launched.Died? {
          LeaseOn(launched.state, launched.state.(live := ReleaseRow(launched.state.live, instance)), cfg, base);
        }
      }
    }
  }

  /******* The whole database *******/

  ghost predicate WorldValid(w: World, p: Policy) {
    w.Indexed() && forall id :: id in w.paths ==> ValidPath(w.paths[id], p.coordinator.Limit())
  }

  ghost predicate WorldExtends(w: World, w': World) {
    forall id :: id in w.paths ==> id in w'.paths && Extends(w.paths[id], w'.paths[id])
  }

  lemma {:induction false} ExtendsTransitive(p: Path, q: Path, r: Path)
    requires Extends(p, q) && Extends(q, r)
    ensures Extends(p, r)
  {
    if q != r { ExtendsTransitive(p, q, r.before); }
  }

  lemma WorldExtendsTransitive(a: World, b: World, c: World)
    requires WorldExtends(a, b) && WorldExtends(b, c)
    ensures WorldExtends(a, c)
  {
    forall id | id in a.paths ensures id in c.paths && Extends(a.paths[id], c.paths[id]) {
      ExtendsTransitive(a.paths[id], b.paths[id], c.paths[id]);
    }
  }

  // A computation on one valid row that ends on the protocol leaves the world valid.
  lemma LiftValid<T>(s: Sys, id: Id, r: JobResult<T>, p: Policy)
    requires WorldValid(s.world, p) && id in s.world.paths
    requires On(r.state, p.coordinator, s.world.paths[id])
    ensures WorldValid(Lift(s, id, r).state.world, p) && WorldExtends(s.world, Lift(s, id, r).state.world)
  {
    hide ValidPath;
  }

  lemma JobAt(s: Sys, id: Id, p: Policy)
    requires WorldValid(s.world, p) && id in s.world.paths
    ensures var j := JobFor(s, id); At(j, j.live.state, p.coordinator, s.world.paths[id])
  {
    hide CommitAllowed, ValidPath;
  }

  lemma {:induction false} ReconcileAllValid(s: Sys, ids: seq<Id>, p: Policy)
    requires WorldValid(s.world, p) && forall id <- ids :: id in s.world.paths
    ensures var r := ReconcileAll(s, ids, p.coordinator);
            WorldValid(r.state.world, p) && WorldExtends(s.world, r.state.world)
    decreases |ids|
  {
    hide CommitAllowed, ValidPath, ReconcileRow;
    if ids != [] {
      JobAt(s, ids[0], p);
      var r := ReconcileRow(JobFor(s, ids[0]), p.coordinator);
      ReconcileRowOn(JobFor(s, ids[0]), p.coordinator, s.world.paths[ids[0]]);
      LiftValid(s, ids[0], r, p);
      var lifted := Lift(s, ids[0], r);
      if lifted.Done? {
        ReconcileAllValid(lifted.state, ids[1..], p);
        WorldExtendsTransitive(s.world, lifted.state.world, ReconcileAll(lifted.state, ids[1..], p.coordinator).state.world);
      }
    }
  }

  lemma DrainOneValid(s: Sys, k: nat, p: Policy)
    requires WorldValid(s.world, p) && k < |s.world.requests|
    ensures var r := DrainOne(s, k); WorldValid(r.state.world, p) && WorldExtends(s.world, r.state.world)
  {
    hide CommitAllowed, ValidPath, CancelRow;
    var request := s.world.requests[k];
    if request.pending && request.cancel && request.id in s.world.paths {
      JobAt(s, request.id, p);
      CancelRowOn(JobFor(s, request.id), request.requester, p.coordinator, s.world.paths[request.id]);
      LiftValid(s, request.id, CancelRow(JobFor(s, request.id), request.requester), p);
    }
  }

  lemma {:induction false} DrainFromValid(s: Sys, k: nat, p: Policy)
    requires WorldValid(s.world, p) && k <= |s.world.requests|
    ensures var r := DrainFrom(s, k); WorldValid(r.state.world, p) && WorldExtends(s.world, r.state.world)
    decreases |s.world.requests| - k
  {
    hide CommitAllowed, ValidPath, DrainOne;
    if k < |s.world.requests| {
      DrainOneValid(s, k, p);
      var one := DrainOne(s, k);
      if one.Done? {
        DrainFromValid(one.state, k + 1, p);
        WorldExtendsTransitive(s.world, one.state.world, DrainFrom(one.state, k + 1).state.world);
      }
    }
  }

  lemma ClaimValid(s: Sys, p: Policy)
    requires WorldValid(s.world, p)
    ensures var r := ClaimAndRun(s, p); WorldValid(r.state.world, p) && WorldExtends(s.world, r.state.world)
  {
    hide CommitAllowed, ValidPath, RunClaimed;
    var (now, s) := ReadSysClock(s);
    var found := FirstCandidate(s.world, s.world.listing, now);
    if found.Some? {
      JobAt(s, found.value, p);
      RunClaimedOn(JobFor(s, found.value), s.world.instance, now, p, s.world.paths[found.value]);
      LiftValid(s, found.value, RunClaimed(JobFor(s, found.value), s.world.instance, now, p), p);
    }
  }

  lemma TickValid(s: Sys, p: Policy)
    requires WorldValid(s.world, p)
    ensures var r := Tick(s, p); WorldValid(r.state.world, p) && WorldExtends(s.world, r.state.world)
  {
    hide CommitAllowed, ValidPath, ReconcileAll, DrainFrom, ClaimAndRun;
    ReconcileAllValid(s, ActiveIds(s.world, s.world.listing), p);
    var reconciled := Reconcile(s, p.coordinator);
    assert WorldValid(reconciled.state.world, p) && WorldExtends(s.world, reconciled.state.world);
    if reconciled.Done? {
      DrainFromValid(reconciled.state, 0, p);
      var drained := DrainFrom(reconciled.state, 0);
      WorldExtendsTransitive(s.world, reconciled.state.world, drained.state.world);
      if drained.Done? {
        ClaimValid(drained.state, p);
        WorldExtendsTransitive(s.world, drained.state.world, ClaimAndRun(drained.state, p).state.world);
      }
    }
  }

  lemma NewRowFresh(op: Op)
    requires op.Schedule?
    ensures forall deadline :: Fresh(Cell(NewRow(op.kind, op.parameters, op.target, op.now, deadline, op.actor), Silent))
  {
  }

  lemma ScheduleValid(w: World, op: Op, p: Policy)
    requires WorldValid(w, p) && op.Schedule?
    ensures WorldValid(Apply(w, op, p), p) && WorldExtends(w, Apply(w, op, p))
  {
    NewRowFresh(op);
    hide Fresh, NewRow, Insert, TargetFree;
  }

  lemma ApplyValid(w: World, op: Op, p: Policy)
    requires WorldValid(w, p)
    ensures WorldValid(Apply(w, op, p), p) && WorldExtends(w, Apply(w, op, p))
  {
    hide ValidPath, CommitAllowed, Tick, ScheduleIn;
    match op
    case TickWith(env) => TickValid(Sys(w, env), p);
    case Schedule(_, _, _, _, _, _, _) => ScheduleValid(w, op, p);
    case _ =>
  }

  // Whatever is scheduled and cancelled, whatever the ports answer, wherever a supervisor dies
  // and however often it is replaced: every experiment stays on the protocol.
  lemma {:induction false} EveryRunFollows(ops: seq<Op>, p: Policy)
    ensures WorldValid(Run(ops, p), p)
  {
    hide CommitAllowed, ValidPath, Apply;
    if ops != [] {
      EveryRunFollows(ops[..|ops| - 1], p);
      ApplyValid(Run(ops[..|ops| - 1], p), ops[|ops| - 1], p);
    }
  }
}
