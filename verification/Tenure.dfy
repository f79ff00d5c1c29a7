/** Who holds an experiment while it is worked on, and for how long: the lease through a claimed pass,
    and the leases that are left when a process is gone. */
module Tenure {
  import opened Wrappers
  import opened Lifecycle
  import opened Rows
  import opened Machine
  import opened CoordinatorSpec
  import opened Aspects
  import opened SupervisorSpec
  import opened Lasting

  predicate LeasedTo(r: Row, instance: Instance, until: int) { r.owner == Some(instance) && r.leaseUntil == until }

  // k is j claimed and renewed: nothing was called, and what is durable is the row with the lease
  // counted from the second look at the clock.
  predicate Renewed(j: Job, k: Job, instance: Instance, seconds: int) {
    && k.Clean() && k.Log() == j.Log()
    && k.live == j.live.(owner := Some(instance), leaseUntil := j.env.now + seconds)
  }

  // From there on the pass of the coordinator is made, and unless the process dies it ends as that
  // pass ends.
  predicate Continues(r: JobResult<seq<State>>, k: Job, instance: Instance, cfg: Config) {
    var pass := Launch(k, cfg);
    && r == Finally(pass, instance) && (pass.Died? ==> r == Died(pass.place, pass.state))
    && (r.Done? ==> pass.Done? && r.value == [pass.value]) && (r.Raised? ==> pass.Raised? && r.error == pass.error)
  }

  // What a claimed pass leaves durable, by how long the process lives. `now` is what the clock said
  // when the row was chosen, `j.env.now` what it says next.
  ghost predicate Leased(j: Job, r: JobResult<seq<State>>, instance: Instance, now: int, p: Policy) {
    var row := r.state.Saved();
    if j.env.life == 0 then r.Died? && row == j.live && r.state.Log() == j.Log()
    else if j.env.life == 1 then
      r.Died? && row == j.live.(owner := Some(instance), leaseUntil := now + p.leaseSeconds) && r.state.Log() == j.Log()
    else
      && (exists k :: Renewed(j, k, instance, p.leaseSeconds) && Continues(r, k, instance, p.coordinator))
      && if r.Died? then LeasedTo(row, instance, j.env.now + p.leaseSeconds) else row.owner.None? && row.leaseUntil == 0
  }

  lemma PassKeepsLease(j: Job, cfg: Config)
    requires j.Clean()
    ensures var r := Launch(j, cfg);
            && r.state.Saved().owner == j.live.owner && r.state.Saved().leaseUntil == j.live.leaseUntil
            && (!r.Died? ==> r.state.live.owner == j.live.owner && r.state.live.leaseUntil == j.live.leaseUntil)
  {
    hide RunOnce;
    LaunchLeft(j, cfg, HeldBy(j.live.owner, j.live.leaseUntil));
  }

  lemma ReleasedAtEnd(r: JobResult<State>, instance: Instance, until: int)
    requires LeasedTo(r.state.Saved(), instance, until) && (!r.Died? ==> LeasedTo(r.state.live, instance, until))
    ensures var row := Finally(r, instance).state.Saved();
            if Finally(r, instance).Died? then LeasedTo(row, instance, until) else row.owner.None? && row.leaseUntil == 0
  {
  }

  lemma EndsAlike(pass: JobResult<State>, instance: Instance)
    ensures var r := Finally(pass, instance);
            && (pass.Died? ==> r == Died(pass.place, pass.state))
            && (r.Done? ==> pass.Done? && r.value == [pass.value]) && (r.Raised? ==> pass.Raised? && r.error == pass.error)
  {
  }

  // A claimed row reaches the coordinator only with a lease that was renewed by the clock of that
  // moment; this lease is durable wherever the process dies in the pass, and gone after it.
  lemma LeaseThroughPass(j: Job, instance: Instance, now: int, p: Policy)
    requires j.Clean()
    ensures Leased(j, RunClaimed(j, instance, now, p), instance, now, p)
  {
    hide Launch, Finally;
    var claimed := Commit(j.(live := ClaimRow(j.live, instance, now, p.leaseSeconds)));
    if claimed.Done? {
      var clock := ReadClock(claimed.state);
      var renewed := Commit(clock.1.(live := RenewRow(clock.1.live, instance, clock.0, p.leaseSeconds)));
      if renewed.Done? {
        var k := renewed.state;
        assert Renewed(j, k, instance, p.leaseSeconds);
        EndsAlike(Launch(k, p.coordinator), instance);
        assert Continues(RunClaimed(j, instance, now, p), k, instance, p.coordinator);
        PassKeepsLease(k, p.coordinator);
        ReleasedAtEnd(Launch(k, p.coordinator), instance, j.env.now + p.leaseSeconds);
      }
    }
  }

  // So after a death in the pass another instance can claim the row exactly when the renewed lease
  // has run out and the state is one the claim selects.
  lemma TakenOverAfterDeath(j: Job, instance: Instance, now: int, p: Policy, t: int)
    requires j.Clean() && j.env.life >= 2 && RunClaimed(j, instance, now, p).Died?
    ensures var row := RunClaimed(j, instance, now, p).state.Saved();
            Candidate(row, t) <==> Claimable(row.state) && t > j.env.now + p.leaseSeconds
  {
    LeaseThroughPass(j, instance, now, p);
    hide RunClaimed;
  }

  /******* Every run *******/

  ghost predicate OwnersBelow(w: World, bound: Instance) {
    forall id :: id in w.paths && w.Row(id).owner.Some? ==> w.Row(id).owner.value < bound
  }

  lemma ReconcileKeepsLease(j: Job, cfg: Config)
    requires j.Clean()
    ensures ReconcileRow(j, cfg).state.Saved().owner == j.live.owner
  {
    hide Launch, TransitAndCommit;
    StepKept(j, CleaningUp, RestartUncertainInjection, cfg.actor, HeldBy(j.live.owner, j.live.leaseUntil));
    var moved := if j.live.state == Injecting then TransitAndCommit(j, CleaningUp, RestartUncertainInjection, cfg.actor)
                 else Done(j.live.state, j);
    LaunchLeft(moved.state, cfg, HeldBy(j.live.owner, j.live.leaseUntil));
  }

  lemma {:induction false} ReconcileOwners(s: Sys, ids: seq<Id>, cfg: Config, bound: Instance)
    requires OwnersBelow(s.world, bound) && forall id <- ids :: id in s.world.paths
    ensures OwnersBelow(ReconcileAll(s, ids, cfg).state.world, bound)
    decreases |ids|
  {
    hide ReconcileRow;
    if ids != [] {
      ReconcileKeepsLease(JobFor(s, ids[0]), cfg);
      var first := Lift(s, ids[0], ReconcileRow(JobFor(s, ids[0]), cfg));
      assert OwnersBelow(first.state.world, bound);
      if first.Done? { ReconcileOwners(first.state, ids[1..], cfg, bound); }
    }
  }

  lemma CancelKeepsLease(j: Job, requester: string)
    requires j.Clean()
    ensures CancelRow(j, requester).state.Saved().owner == j.live.owner
  {
  }

  lemma DrainOneOwners(s: Sys, k: nat, bound: Instance)
    requires OwnersBelow(s.world, bound) && k < |s.world.requests|
    ensures OwnersBelow(DrainOne(s, k).state.world, bound)
  {
    hide CancelRow;
    var request := s.world.requests[k];
    if request.id in s.world.paths { CancelKeepsLease(JobFor(s, request.id), request.requester); }
  }

  lemma {:induction false} DrainOwners(s: Sys, k: nat, bound: Instance)
    requires OwnersBelow(s.world, bound) && k <= |s.world.requests|
    ensures OwnersBelow(DrainFrom(s, k).state.world, bound)
    decreases |s.world.requests| - k
  {
    hide DrainOne, OwnersBelow;
    if k < |s.world.requests| {
      DrainOneOwners(s, k, bound);
      var one := DrainOne(s, k);
      if one.Done? { DrainOwners(one.state, k + 1, bound); }
    }
  }

  lemma ClaimOwners(s: Sys, p: Policy)
    requires s.world.Indexed() && OwnersBelow(s.world, s.world.instance)
    ensures var r := ClaimAndRun(s, p);
            OwnersBelow(r.state.world, if r.Died? then s.world.instance + 1 else s.world.instance)
  {
    hide RunClaimed, Continues, Renewed;
    var (now, t) := ReadSysClock(s);
    var found := FirstCandidate(t.world, t.world.listing, now);
    if found.Some? { LeaseThroughPass(JobFor(t, found.value), t.world.instance, now, p); }
  }

  lemma TickOwners(s: Sys, p: Policy)
    requires s.world.Indexed() && OwnersBelow(s.world, s.world.instance)
    ensures var r := Tick(s, p);
            OwnersBelow(r.state.world, if r.Died? then s.world.instance + 1 else s.world.instance)
  {
    hide ReconcileAll, DrainFrom, ClaimAndRun, ActiveIds, OwnersBelow;
    OneMore(s.world);
    ReconcileOwners(s, ActiveIds(s.world, s.world.listing), p.coordinator, s.world.instance);
    var reconciled := Reconcile(s, p.coordinator);
    SameOwners(ReconcileAll(s, ActiveIds(s.world, s.world.listing), p.coordinator).state.world, reconciled.state.world, s.world.instance);
    OneMore(reconciled.state.world);
    if reconciled.Done? {
      DrainOwners(reconciled.state, 0, s.world.instance);
      var drained := DrainFrom(reconciled.state, 0);
      OneMore(drained.state.world);
      if drained.Done? { ClaimOwners(drained.state, p); }
    }
  }

  lemma OneMore(w: World)
    ensures forall bound: Instance :: OwnersBelow(w, bound) ==> OwnersBelow(w, bound + 1)
  {
  }

  lemma SameOwners(w: World, w': World, bound: Instance)
    ensures w.paths == w'.paths ==> (OwnersBelow(w, bound) <==> OwnersBelow(w', bound))
  {
  }

  // Between operations every lease in the database was left by a process that is dead: the running
  // one holds none, and no later one ever starts with one in its own name.
  lemma {:induction false} LeasesOfTheDead(ops: seq<Op>, p: Policy, id: Id)
    requires id in Run(ops, p).paths && Run(ops, p).Row(id).owner.Some?
    ensures Run(ops, p).Row(id).owner.value < Run(ops, p).instance
  {
    OwnersInRun(ops, p);
    hide Run;
  }

  lemma {:induction false} OwnersInRun(ops: seq<Op>, p: Policy)
    ensures OwnersBelow(Run(ops, p), Run(ops, p).instance)
  {
    hide Tick;
    if ops != [] {
      var earlier, op := ops[..|ops| - 1], ops[|ops| - 1];
      var w := Run(earlier, p);
      OwnersInRun(earlier, p);
      if op.TickWith? {
        TickOwners(Sys(w, op.env), p);
        TickKeepsInstance(Sys(w, op.env), p);
      }
    }
  }

  lemma TickKeepsInstance(s: Sys, p: Policy)
    requires s.world.Indexed()
    ensures Tick(s, p).state.world.instance == s.world.instance
  {
    hide ReconcileAll, DrainFrom, ClaimAndRun, ActiveIds;
  }

  // A restart and a death lose nothing that is durable, and what comes after is a process of its own:
  // it has to reconcile, and no lease in the database is in its name.
  lemma ReplacedByFresh(ops: seq<Op>, op: Op, p: Policy)
    requires op.Restart? || (op.TickWith? && Tick(Sys(Run(ops, p), op.env), p).Died?)
    ensures var w, w' := Run(ops, p), Apply(Run(ops, p), op, p);
            var durable := if op.Restart? then w else Tick(Sys(w, op.env), p).state.world;
            && w'.paths == durable.paths && w'.requests == durable.requests && w'.listing == w.listing
            && !w'.reconciled && w'.instance > w.instance
            && forall id :: id in w'.paths ==> w'.Row(id).owner != Some(w'.instance)
  {
    hide Run, Tick, OwnersBelow;
    var w := Run(ops, p);
    OwnersInRun(ops, p);
    NotInItsName(w, w.instance);
    if op.TickWith? {
      TickOwners(Sys(w, op.env), p);
      TickKeepsInstance(Sys(w, op.env), p);
      NotInItsName(Tick(Sys(w, op.env), p).state.world, w.instance + 1);
    }
  }

  lemma NotInItsName(w: World, bound: Instance)
    requires OwnersBelow(w, bound)
    ensures forall id, later: Instance :: id in w.paths && later >= bound ==> w.Row(id).owner != Some(later)
  {
  }
}
