/** The state a death can leave a row in for good, and that nothing but a death does. */
module Stranded {
  import opened Wrappers
  import opened Lifecycle
  import opened Rows
  import opened Machine
  import opened Protocol
  import opened CoordinatorSpec
  import opened CoordinatorFollows
  import opened CleanupFollows
  import opened SupervisorSpec
  import opened SupervisorFollows
  import opened Evidence
  import opened Invariants
  import opened Aspects
  import opened Convergence
  import opened Passable
  import opened Blocked
  import opened Limits
  import Scenarios

  /******* Nothing ever picks up a row in verifying *******/

  predicate Left(s: Sys, s': Sys, id: Id)
    requires id in s.world.paths
  {
    id in s'.world.paths && s'.world.paths[id] == s.world.paths[id]
  }

  lemma LiftLeaves<T>(s: Sys, other: Id, r: JobResult<T>, id: Id)
    requires id in s.world.paths
    requires other == id ==> r.state.path == s.world.paths[id]
    ensures Left(s, Lift(s, other, r).state, id)
  {
  }

  lemma {:induction false} ReconcileLeaves(s: Sys, ids: seq<Id>, cfg: Config, id: Id)
    requires id in s.world.paths && s.world.Row(id).state == Verifying
    requires forall i <- ids :: i in s.world.paths
    ensures Left(s, ReconcileAll(s, ids, cfg).state, id)
    decreases |ids|
  {
    hide Launch;
    if ids != [] {
      LiftLeaves(s, ids[0], ReconcileRow(JobFor(s, ids[0]), cfg), id);
      hide ReconcileRow;
      var first := Lift(s, ids[0], ReconcileRow(JobFor(s, ids[0]), cfg));
      if first.Done? { ReconcileLeaves(first.state, ids[1..], cfg, id); }
    }
  }

  lemma {:induction false} DrainLeaves(s: Sys, k: nat, id: Id)
    requires id in s.world.paths && s.world.Row(id).state == Verifying && k <= |s.world.requests|
    ensures Left(s, DrainFrom(s, k).state, id)
    decreases |s.world.requests| - k
  {
    if k < |s.world.requests| {
      DrainOneLeaves(s, k, id);
      hide DrainOne;
      var one := DrainOne(s, k);
      if one.Done? { DrainLeaves(one.state, k + 1, id); }
    }
  }

  lemma DrainOneLeaves(s: Sys, k: nat, id: Id)
    requires id in s.world.paths && s.world.Row(id).state == Verifying && k < |s.world.requests|
    ensures Left(s, DrainOne(s, k).state, id)
  {
    var request := s.world.requests[k];
    if request.id in s.world.paths {
      if request.id == id { assert CancelRow(JobFor(s, id), request.requester).state.path == s.world.paths[id]; }
      LiftLeaves(s, request.id, CancelRow(JobFor(s, request.id), request.requester), id);
    }
    hide CancelRow;
  }

  lemma ClaimLeaves(s: Sys, p: Policy, id: Id)
    requires s.world.Indexed() && id in s.world.paths && s.world.Row(id).state == Verifying
    ensures Left(s, ClaimAndRun(s, p).state, id)
  {
    hide RunClaimed;
  }

  lemma TickLeaves(s: Sys, p: Policy, id: Id)
    requires s.world.Indexed() && id in s.world.paths && s.world.Row(id).state == Verifying
    ensures Left(s, Tick(s, p).state, id)
  {
    hide ReconcileAll, DrainFrom, ClaimAndRun, ActiveIds;
    ReconcileLeaves(s, ActiveIds(s.world, s.world.listing), p.coordinator, id);
    var reconciled := Reconcile(s, p.coordinator);
    if reconciled.Done? {
      DrainLeaves(reconciled.state, 0, id);
      var drained := DrainFrom(reconciled.state, 0);
      if drained.Done? { ClaimLeaves(drained.state, p, id); }
    }
  }

  // A row found in verifying stays there whatever is scheduled, cancelled, restarted or ticked,
  // and its target never accepts another experiment.
  lemma {:induction false} StrandedForever(w: World, ops: seq<Op>, p: Policy, id: Id)
    requires w.Indexed() && id in w.paths && w.Row(id).state == Verifying
    ensures var w' := ApplyEach(w, ops, p);
            && id in w'.paths && w'.paths[id] == w.paths[id]
            && forall op: Op :: op.Schedule? && op.target == w.Row(id).target ==> ScheduleIn(w', op).None?
  {
    hide Tick;
    if ops != [] {
      var earlier, op := ops[..|ops| - 1], ops[|ops| - 1];
      StrandedForever(w, earlier, p, id);
      if op.TickWith? { TickLeaves(Sys(ApplyEach(w, earlier, p), op.env), p, id); }
    }
  }

  /******* How a row gets there *******/

  // One call or commit short of what the pass costs.
  function OneShort(r: Row, cfg: Config): Env {
    var env := Enough(r, NOTHING, cfg);
    env.(life := if env.life == 0 then 0 else env.life - 1)
  }

  // A cleanup that answers and verifies, observed, by a process that dies between the commit of
  // the last observation and that of the verdict.
  lemma DeathBeforeVerdictStrands(path: Path, cfg: Config)
    requires ValidPath(path, cfg.Limit()) && path.cell.row.state == CleaningUp && cfg.observed
    requires Owned(path.cell.row.kind, path.cell.row.context)
    ensures var r := RunOnce(Job(path, path.cell.row, OneShort(path.cell.row, cfg)), cfg);
            r == Died(AtCommit, r.state) && r.state.path.cell.row.state == Verifying
  {
    hide CommitAllowed, ValidPath, Extends, AttemptCleanup, Conclude, Owned, Gone, Mentions, MarkCancelled;
    var row := path.cell.row;
    var j := Job(path, row, OneShort(row, cfg));
    JobOnPath(path, j.env, cfg);
    var entered := Note(j, Entered);
    NoteOn(j, Entered, cfg, path);
    MentionedWhenMarked(path, cfg);
    MarkPaid(entered, Remembers(row), cfg, path);
    var marked := MarkCancelled(entered, Remembers(row)).state;
    assert RunOnce(j, cfg) == CleanupMarked(marked, Remembers(row), cfg);
    assert marked.env.control == j.env.control;
    AttemptOn(marked, cfg, path);
    AttemptAnswered(marked);
    DeathBeforeVerdict(AttemptCleanup(marked).state, Remembers(row), cfg);
  }

  lemma MentionedWhenMarked(path: Path, cfg: Config)
    requires ValidPath(path, cfg.Limit()) && path.cell.row.state == CleaningUp
    ensures Remembers(path.cell.row) ==> Mentions(path.cell.row.audit, CancellationRequested)
  {
    PathSound(path, cfg.Limit());
  }

  lemma DeathBeforeVerdict(j: Job, cancelled: bool, cfg: Config)
    requires j.live.state == CleaningUp && Owned(j.live.kind, j.live.context) && cfg.observed
    requires j.env.site == [] && j.env.life == 4 && j.env.control != [] && j.env.control[0] == Reply(Gone(j.live.kind))
    ensures var r := Conclude(j, cancelled, cfg); r == Died(AtCommit, r.state) && r.state.path.cell.row.state == Verifying
  {
    hide Scenarios.VerifyCleanup, Owned, Gone, NextSequence;
    var k := Transit(j, Verifying, CleanupSucceeded, cfg.actor).state;
    VerifyPaid(k);
    var noted := Note(Scenarios.VerifyCleanup(k).state, VerifyAnswered(true));
    var seen := Observe(noted, Phase.After, cfg);
    assert seen.Done? && seen.state.live.state == Verifying && seen.state.env.life == 0;
    assert seen.state.path.cell.row == seen.state.live;
  }

  // Exactly an observer makes it possible: the only commit that makes verifying durable is the one
  // of the last observation.
  lemma VerifyingExactlyWhenObserved(path: Path, cfg: Config)
    requires ValidPath(path, cfg.Limit()) && path.cell.row.state == CleaningUp
    requires Owned(path.cell.row.kind, path.cell.row.context)
    ensures (exists env :: RunOnce(Job(path, path.cell.row, env), cfg).state.path.cell.row.state == Verifying) <==> cfg.observed
  {
    hide ValidPath, RunOnce, Owned, OneShort;
    if cfg.observed {
      DeathBeforeVerdictStrands(path, cfg);
      assert RunOnce(Job(path, path.cell.row, OneShort(path.cell.row, cfg)), cfg).state.path.cell.row.state == Verifying;
    } else {
      forall env ensures RunOnce(Job(path, path.cell.row, env), cfg).state.path.cell.row.state != Verifying {
        RunOnceKept(Job(path, path.cell.row, env), cfg, NeverVerifying);
      }
    }
  }

  /******* Only a death leaves one there *******/

  // A state the supervisor selects rows in, or one that is over.
  predicate Resting(s: State) { Claimable(s) || Terminal(s) }

  // ... and no attempt succeeded but the last one of a row that is over.
  predicate Calm(r: Row) {
    Resting(r.state) && forall i :: 0 <= i < |r.attempts| && r.attempts[i].ok ==> i == |r.attempts| - 1 && Terminal(r.state)
  }

  lemma PassRests(j: Job, cfg: Config)
    requires At(j, j.live.state, cfg, j.path) && Claimable(j.live.state) && Calm(j.live)
    ensures var r := RunOnce(j, cfg); !r.Died? ==> Calm(r.state.Saved()) && Calm(r.state.live)
  {
    hide CommitAllowed, ValidPath, Extends, RunOnce;
    RunOnceOn(j, cfg, j.path);
    PassRaisesExactly(j, cfg, if cfg.maxAttempts < 1 then 1 else cfg.maxAttempts);
    var r := RunOnce(j, cfg);
    if !r.Died? { TalliedCalm(j.live, r.state.Saved()); }
  }

  lemma TalliedCalm(r: Row, r': Row)
    requires Calm(r) && !Terminal(r.state) && Tallied(r.attempts, r') && Resting(r'.state)
    ensures Calm(r')
  {
    var n := |r.attempts|;
    forall i | 0 <= i < n ensures r'.attempts[i] == r.attempts[i] {
      assert r'.attempts[i] == r'.attempts[..n][i];
    }
  }

  lemma ReconcileRests(j: Job, cfg: Config)
    requires At(j, j.live.state, cfg, j.path) && Calm(j.live)
    ensures var r := ReconcileRow(j, cfg); !r.Died? ==> Calm(r.state.Saved())
  {
    hide CommitAllowed, ValidPath, Extends, RunOnce;
    if NeedsCleanup(j.live.state) && !j.live.kind.Unlisted? { PassRests(j, cfg); }
  }

  lemma ClaimRests(j: Job, instance: Instance, now: int, p: Policy)
    requires At(j, j.live.state, p.coordinator, j.path) && Claimable(j.live.state) && Calm(j.live)
    ensures var r := RunClaimed(j, instance, now, p); !r.Died? ==> Calm(r.state.Saved())
  {
    hide CommitAllowed, ValidPath, Extends, Launch;
    var cfg := p.coordinator;
    var claiming := j.(live := ClaimRow(j.live, instance, now, p.leaseSeconds));
    LeaseOn(j, claiming, cfg, j.path);
    var claimed := Commit(claiming);
    if claimed.Done? {
      var clock := ReadClock(claimed.state);
      var renewing := clock.1.(live := RenewRow(clock.1.live, instance, clock.0, p.leaseSeconds));
      LeaseOn(clock.1, renewing, cfg, j.path);
      var renewed := Commit(renewing);
      if renewed.Done? { LaunchRests(renewed.state, cfg, j.path); }
    }
  }

  lemma LaunchRests(j: Job, cfg: Config, base: Path)
    requires At(j, j.live.state, cfg, base) && Claimable(j.live.state) && Calm(j.live)
    ensures var r := Launch(j, cfg); !r.Died? ==> Calm(r.state.live)
  {
    hide CommitAllowed, ValidPath, Extends, RunOnce;
    if !j.live.kind.Unlisted? {
      Reflexive(j, cfg, base);
      PassRests(j, cfg);
    }
  }

  ghost predicate AllCalm(w: World) { forall id :: id in w.paths ==> Calm(w.Row(id)) }

  lemma {:induction false} ReconcileAllRests(s: Sys, ids: seq<Id>, p: Policy)
    requires WorldValid(s.world, p) && AllCalm(s.world) && forall id <- ids :: id in s.world.paths
    ensures var r := ReconcileAll(s, ids, p.coordinator); !r.Died? ==> AllCalm(r.state.world)
    decreases |ids|
  {
    hide CommitAllowed, ValidPath, ReconcileRow, Calm;
    if ids != [] {
      JobAt(s, ids[0], p);
      ReconcileRowOn(JobFor(s, ids[0]), p.coordinator, s.world.paths[ids[0]]);
      ReconcileRests(JobFor(s, ids[0]), p.coordinator);
      var r := ReconcileRow(JobFor(s, ids[0]), p.coordinator);
      LiftValid(s, ids[0], r, p);
      var lifted := Lift(s, ids[0], r);
      if lifted.Done? { ReconcileAllRests(lifted.state, ids[1..], p); }
    }
  }

  lemma CancelRests(j: Job, requester: string)
    requires j.Clean() && Calm(j.live)
    ensures Calm(CancelRow(j, requester).state.Saved())
  {
  }

  lemma DrainOneRests(s: Sys, k: nat)
    requires AllCalm(s.world) && k < |s.world.requests|
    ensures AllCalm(DrainOne(s, k).state.world)
  {
    hide CancelRow, Calm;
    var request := s.world.requests[k];
    if request.pending && request.cancel && request.id in s.world.paths {
      CancelRests(JobFor(s, request.id), request.requester);
    }
  }

  lemma {:induction false} DrainRests(s: Sys, k: nat)
    requires AllCalm(s.world) && k <= |s.world.requests|
    ensures AllCalm(DrainFrom(s, k).state.world)
    decreases |s.world.requests| - k
  {
    hide DrainOne, AllCalm;
    if k < |s.world.requests| {
      DrainOneRests(s, k);
      var one := DrainOne(s, k);
      if one.Done? { DrainRests(one.state, k + 1); }
    }
  }

  lemma TickRests(s: Sys, p: Policy)
    requires WorldValid(s.world, p) && AllCalm(s.world)
    ensures var r := Tick(s, p); !r.Died? ==> AllCalm(r.state.world)
  {
    hide CommitAllowed, ValidPath, ReconcileAll, DrainFrom, RunClaimed, Calm, ActiveIds;
    ReconcileAllRests(s, ActiveIds(s.world, s.world.listing), p);
    ReconcileAllValid(s, ActiveIds(s.world, s.world.listing), p);
    var reconciled := Reconcile(s, p.coordinator);
    if reconciled.Done? {
      DrainRests(reconciled.state, 0);
      DrainFromValid(reconciled.state, 0, p);
      var drained := DrainFrom(reconciled.state, 0);
      if drained.Done? { ClaimAllRests(drained.state, p); }
    }
    hide ClaimAndRun;
  }

  lemma ClaimAllRests(s: Sys, p: Policy)
    requires WorldValid(s.world, p) && AllCalm(s.world)
    ensures var r := ClaimAndRun(s, p); !r.Died? ==> AllCalm(r.state.world)
  {
    hide CommitAllowed, ValidPath, RunClaimed, Calm;
    var (now, s) := ReadSysClock(s);
    var found := FirstCandidate(s.world, s.world.listing, now);
    if found.Some? {
      JobAt(s, found.value, p);
      ClaimRests(JobFor(s, found.value), s.world.instance, now, p);
    }
  }

  ghost predicate NobodyDies(ops: seq<Op>, p: Policy) {
    ops != [] ==>
      && NobodyDies(ops[..|ops| - 1], p)
      && (ops[|ops| - 1].TickWith? ==> !Tick(Sys(Run(ops[..|ops| - 1], p), ops[|ops| - 1].env), p).Died?)
  }

  lemma {:induction false} UndisturbedIsCalm(ops: seq<Op>, p: Policy)
    requires NobodyDies(ops, p)
    ensures AllCalm(Run(ops, p))
  {
    hide CommitAllowed, ValidPath, Tick;
    if ops != [] {
      var earlier, op := ops[..|ops| - 1], ops[|ops| - 1];
      UndisturbedIsCalm(earlier, p);
      EveryRunFollows(earlier, p);
      if op.TickWith? { TickRests(Sys(Run(earlier, p), op.env), p); }
    }
  }

  // In a run in which no process dies, every experiment is at every moment over or in a state the
  // supervisor selects rows in: none is left in injecting or verifying.
  lemma OnlyDeathStrands(ops: seq<Op>, p: Policy)
    requires NobodyDies(ops, p)
    ensures forall id :: id in Run(ops, p).paths ==> Resting(Run(ops, p).Row(id).state)
  {
    UndisturbedIsCalm(ops, p);
  }

  /******* The first raise *******/

  lemma FirstAtLimit(attempts: seq<Attempt>, n: int, k: int)
    requires FirstRaise(attempts, n, k)
    ensures k == n <==> !attempts[n - 1].ok
  {
  }

  lemma CalmRaisesAtLimit(r: Row, n: int, k: int)
    requires Calm(r) && FirstRaise(r.attempts, n, k)
    ensures k == n
  {
    var nth := r.attempts[n - 1];
    assert k == n || nth.ok;
  }

  // In any run: the first failed attempt from the n-th on, at which the coordinator first raised, is
  // the n-th exactly if the n-th failed. If no process dies it did.
  lemma FirstRaiseExactly(ops: seq<Op>, p: Policy, id: Id, n: int, k: int)
    requires id in Run(ops, p).paths && Grants(p.coordinator, n) && FirstRaise(Run(ops, p).Row(id).attempts, n, k)
    ensures k == n <==> !Run(ops, p).Row(id).attempts[n - 1].ok
    ensures NobodyDies(ops, p) ==> k == n
  {
    hide Run, NobodyDies;
    var row := Run(ops, p).Row(id);
    FirstAtLimit(row.attempts, n, k);
    if NobodyDies(ops, p) {
      UndisturbedIsCalm(ops, p);
      CalmRaisesAtLimit(row, n, k);
    }
  }
}
