/** Experiments no pass can end, and what they do to everything younger. */
module Starvation {
  import opened Wrappers
  import opened Lifecycle
  import opened Rows
  import opened Machine
  import opened Evidence
  import opened Protocol
  import opened Invariants
  import opened Safety
  import opened CoordinatorSpec
  import opened CoordinatorFollows
  import opened CleanupFollows
  import opened Convergence
  import opened Aspects
  import opened Passable
  import opened SupervisorSpec
  import opened SupervisorFollows
  import opened Runs
  import opened Blocked
  import opened Drain
  import opened Turns
  import Scenarios
  import Lasting

  // Its scenario is not in the catalog, its parameters are out of bounds before it begins, or it
  // has an effect to clean up that is not proved to be its own.
  predicate Endless(r: Row) {
    || r.kind.Unlisted?
    || (r.state in {Planned, State.Preflight} && !ParametersAccepted(r.kind, r.parameters))
    || (NeedsCleanup(r.state) && !Owned(r.kind, r.context))
  }

  /******* One pass can end a row exactly when it is not endless *******/

  const NO := Reading(false, false, false, false, false, false, 0, 0, 0)

  lemma NoBaseline(kind: Kind, p: Parameters)
    ensures !BaselineOk(kind, p, NO)
  {
  }

  // Both preflights refuse.
  const REFUSAL := Env([Reply(NO)], [Verdict(false)], [], 0, [], 3)

  lemma RefusalEnds(j: Job, cfg: Config)
    requires j.live.state in {Planned, State.Preflight} && ParametersAccepted(j.live.kind, j.live.parameters)
    requires j.env == REFUSAL
    ensures var r := RunOnce(j, cfg); r.Done? && r.value == Failed
  {
    NoBaseline(j.live.kind, j.live.parameters);
    hide BaselineOk, ParametersAccepted;
    var entered := Note(j, Entered);
    var k := EnterPreflight(entered, cfg).state;
    var prepared := Prepare(entered, cfg);
    if HasPreflight(k.live.kind) {
      var probed := Scenarios.Preflight(k);
      assert probed.Done? && !probed.value && probed.state.live == k.live && probed.state.env.life == 2;
    } else {
      var checked := AskGate(k);
      assert checked.Done? && !checked.value && checked.state.live == k.live && checked.state.env.life == 2;
    }
    assert prepared.Done? && prepared.value == Failed && prepared.state.live.state == Failed;
  }

  // The deadline has come, and cleanup is answered.
  function AtDeadline(r: Row, cfg: Config): Env {
    var env := Enough(r.(state := Expired), NOTHING, cfg);
    env.(now := r.expiresAt, life := env.life + 1)
  }

  lemma DeadlineEnds(j: Job, cfg: Config)
    requires At(j, Active, cfg, j.path) && Owned(j.live.kind, j.live.context) && j.env == AtDeadline(j.live, cfg)
    ensures var r := RunOnce(j, cfg); r.Done? && Terminal(r.value)
  {
    hide CommitAllowed, ValidPath, Extends, Retire, Owned, Gone;
    var entered := Note(j, Entered);
    NoteOn(j, Entered, cfg, j.path);
    StepOn(entered, Expired, DeadlineReached, cfg.actor, cfg, j.path);
    var expired := TransitAndCommit(entered, Expired, DeadlineReached, cfg.actor).state;
    assert Attend(entered, cfg) == Done(Expired, expired);
    RetirePaid(expired, NOTHING.(now := j.live.expiresAt), cfg, j.path);
  }

  lemma CleanupEnds(path: Path, cfg: Config)
    requires ValidPath(path, cfg.Limit()) && NeedsCleanup(path.cell.row.state)
    requires Owned(path.cell.row.kind, path.cell.row.context)
    ensures var r := RunOnce(Job(path, path.cell.row, Enough(path.cell.row, NOTHING, cfg)), cfg); r.Done? && Terminal(r.value)
  {
    hide ValidPath, RunOnce, Owned, Enough;
    PassPaid(path, NOTHING, cfg, path);
  }

  // Answers that end the row in one pass.
  function Ending(r: Row, cfg: Config): Env {
    if r.state in {Planned, State.Preflight} then REFUSAL
    else if r.state == Active then AtDeadline(r, cfg)
    else Enough(r, NOTHING, cfg)
  }

  lemma SomePassEnds(path: Path, cfg: Config)
    requires ValidPath(path, cfg.Limit()) && Claimable(path.cell.row.state) && !Endless(path.cell.row)
    ensures var r := Launch(Job(path, path.cell.row, Ending(path.cell.row, cfg)), cfg); r.Done? && Terminal(r.value)
  {
    hide ValidPath, RunOnce, ParametersAccepted, Owned, Enough, AtDeadline;
    var row := path.cell.row;
    var j := Job(path, row, Ending(row, cfg));
    JobOnPath(path, j.env, cfg);
    if row.state in {Planned, State.Preflight} {
      RefusalEnds(j, cfg);
    } else if row.state == Active {
      ActiveHasContext(path, cfg.Limit());
      DeadlineEnds(j, cfg);
    } else {
      CleanupEnds(path, cfg);
    }
  }

  lemma NoPassEnds(j: Job, cfg: Config)
    requires At(j, j.live.state, cfg, j.path) && Claimable(j.live.state) && Endless(j.live)
    ensures var r := Launch(j, cfg);
            && !(r.Done? && Terminal(r.value)) && Endless(r.state.Saved()) && Claimable(r.state.Saved().state)
            && (r.Raised? ==> Endless(r.state.live) && Claimable(r.state.live.state))
            && (r.Done? ==> r.state.Clean())
  {
    hide CommitAllowed, ValidPath, Extends, RunOnce, Owned, ParametersAccepted;
    if j.live.kind.Unlisted? {
    } else if j.live.state in {Planned, State.Preflight} {
      InvalidParametersStay(j, cfg);
      PreparingSaved(RunOnce(j, cfg).state, cfg, j.path);
      RunOnceOn(j, cfg, j.path);
      PathKeepsIdentity(j.path, RunOnce(j, cfg).state.path, cfg.Limit());
    } else {
      RunOnceOn(j, cfg, j.path);
      var r := RunOnce(j, cfg);
      UnownedStays(j.path, r.state.path, cfg.Limit());
      PathKeepsIdentity(j.path, r.state.path, cfg.Limit());
      LaunchOn(j, cfg, j.path);
    }
  }

  lemma PreparingSaved(j: Job, cfg: Config, base: Path)
    requires Preparing(j, cfg, base)
    ensures j.Saved().state in {Planned, State.Preflight} && SameExperiment(j.Saved(), j.live)
  {
  }

  lemma EndlessExactly(path: Path, cfg: Config)
    requires ValidPath(path, cfg.Limit()) && Claimable(path.cell.row.state)
    ensures (exists env :: var r := Launch(Job(path, path.cell.row, env), cfg); r.Done? && Terminal(r.value)) <==>
            !Endless(path.cell.row)
  {
    hide ValidPath, Launch, Endless, Ending;
    if Endless(path.cell.row) {
      forall env ensures var r := Launch(Job(path, path.cell.row, env), cfg); !(r.Done? && Terminal(r.value)) {
        JobOnPath(path, env, cfg);
        NoPassEnds(Job(path, path.cell.row, env), cfg);
      }
    } else {
      SomePassEnds(path, cfg);
    }
  }

  /******* It stays endless through every tick *******/

  lemma ClaimEndless(j: Job, instance: Instance, now: int, p: Policy)
    requires At(j, j.live.state, p.coordinator, j.path) && Claimable(j.live.state) && Endless(j.live)
    ensures var r := RunClaimed(j, instance, now, p);
            && Endless(r.state.Saved()) && Claimable(r.state.Saved().state)
            && (!r.Died? ==> r.state.Saved().owner.None?)
  {
    hide CommitAllowed, ValidPath, Extends, Launch, Owned, ParametersAccepted;
    var cfg := p.coordinator;
    var claiming := j.(live := ClaimRow(j.live, instance, now, p.leaseSeconds));
    LeaseOn(j, claiming, cfg, j.path);
    var claimed := Commit(claiming);
    if claimed.Done? {
      var clock := ReadClock(claimed.state);
      var renewing := clock.1.(live := RenewRow(clock.1.live, instance, clock.0, p.leaseSeconds));
      LeaseOn(clock.1, renewing, cfg, j.path);
      var renewed := Commit(renewing);
      if renewed.Done? {
        Reflexive(renewed.state, cfg, j.path);
        NoPassEnds(renewed.state, cfg);
        Lasting.LaunchLeft(renewed.state, cfg, HeldBy(Some(instance), renewed.state.live.leaseUntil));
      }
    }
  }

  lemma ReconcileEndless(j: Job, cfg: Config)
    requires At(j, j.live.state, cfg, j.path) && Claimable(j.live.state) && Endless(j.live)
    ensures var r := ReconcileRow(j, cfg); Endless(r.state.Saved()) && Claimable(r.state.Saved().state)
  {
    hide CommitAllowed, ValidPath, Extends, Launch, Owned, ParametersAccepted;
    NoPassEnds(j, cfg);
  }

  lemma CancelEndless(j: Job, requester: string)
    requires j.Clean() && Claimable(j.live.state) && Endless(j.live) && j.live.state != Planned
    ensures var r := CancelRow(j, requester); Endless(r.state.Saved()) && Claimable(r.state.Saved().state)
  {
    hide Owned, ParametersAccepted;
  }

  // Only a cancellation before it begins ends it, so there must be none.
  ghost predicate Doomed(w: World, bad: Id) {
    && bad in w.paths && Claimable(w.Row(bad).state) && Endless(w.Row(bad))
    && (w.Row(bad).state == Planned ==> !CancelPending(w, 0, bad))
  }

  lemma {:induction false} ReconcileDoomed(s: Sys, ids: seq<Id>, p: Policy, bad: Id)
    requires WorldValid(s.world, p) && Doomed(s.world, bad) && forall i <- ids :: i in s.world.paths
    ensures Doomed(ReconcileAll(s, ids, p.coordinator).state.world, bad)
    decreases |ids|
  {
    hide CommitAllowed, ValidPath, ReconcileRow, Endless;
    if ids != [] {
      JobAt(s, ids[0], p);
      var r := ReconcileRow(JobFor(s, ids[0]), p.coordinator);
      ReconcileRowOn(JobFor(s, ids[0]), p.coordinator, s.world.paths[ids[0]]);
      LiftValid(s, ids[0], r, p);
      if ids[0] == bad {
        ReconcileEndless(JobFor(s, bad), p.coordinator);
        if s.world.Row(bad).state != Planned { NeverBackToPlanned(s.world.paths[bad], r.state.path, p.coordinator.Limit()); }
      }
      var lifted := Lift(s, ids[0], r);
      if lifted.Done? { ReconcileDoomed(lifted.state, ids[1..], p, bad); }
    }
  }

  lemma {:induction false} NeverBackToPlanned(p: Path, q: Path, limit: nat)
    requires ValidPath(q, limit) && Extends(p, q) && p.cell.row.state != Planned
    ensures q.cell.row.state != Planned
  {
    hide Follows;
    if p != q { NeverBackToPlanned(p, q.before, limit); }
  }

  // What serving one request leaves as it was, on every row: no port is called, the lease is not
  // touched, and a row that cannot be claimed does not move.
  predicate Quiet(c: Cell, c': Cell) {
    c'.log == c.log && c'.row.owner == c.row.owner && (!Claimable(c.row.state) ==> c'.row.state == c.row.state)
  }

  ghost predicate AllQuiet(w: World, w': World) {
    forall id :: id in w.paths ==> id in w'.paths && Quiet(w.paths[id].cell, w'.paths[id].cell)
  }

  lemma CancelQuiet(j: Job, requester: string)
    requires j.Clean()
    ensures Quiet(j.path.cell, CancelRow(j, requester).state.path.cell)
  {
  }

  lemma ServeOne(s: Sys, k: nat, p: Policy, bad: Id)
    requires WorldValid(s.world, p) && Doomed(s.world, bad) && k < |s.world.requests|
    ensures var r := DrainOne(s, k);
            && Doomed(r.state.world, bad) && AllQuiet(s.world, r.state.world)
            && r.state.env == s.env.(life := r.state.env.life)
  {
    hide ValidPath, CancelRow, Endless, Claimable, CancelPending;
    var request := s.world.requests[k];
    if request.pending && request.cancel && request.id in s.world.paths {
      CancelQuiet(JobFor(s, request.id), request.requester);
      CancelCostsLife(JobFor(s, request.id), request.requester);
      if request.id == bad {
        assert s.world.Row(bad).state != Planned by { PendingHere(s.world, k, bad); }
        CancelEndless(JobFor(s, bad), request.requester);
        CancelLeavesPlanned(JobFor(s, bad), request.requester);
      }
    }
    FewerPending(s, k, bad);
  }

  lemma PendingHere(w: World, k: nat, id: Id)
    requires k < |w.requests| && w.requests[k].pending && w.requests[k].cancel && w.requests[k].id == id
    ensures CancelPending(w, 0, id)
  {
  }

  lemma CancelCostsLife(j: Job, requester: string)
    ensures CancelRow(j, requester).state.env == j.env.(life := CancelRow(j, requester).state.env.life)
  {
  }

  lemma CancelLeavesPlanned(j: Job, requester: string)
    requires j.Clean() && j.live.state != Planned
    ensures CancelRow(j, requester).state.Saved().state != Planned
  {
  }

  lemma FewerPending(s: Sys, k: nat, id: Id)
    requires k < |s.world.requests|
    ensures CancelPending(DrainOne(s, k).state.world, 0, id) ==> CancelPending(s.world, 0, id)
  {
    hide CancelRow;
    var w' := DrainOne(s, k).state.world;
    if CancelPending(w', 0, id) {
      var i :| 0 <= i < |w'.requests| && w'.requests[i].pending && w'.requests[i].cancel && w'.requests[i].id == id;
      assert s.world.requests[i].pending && s.world.requests[i].cancel && s.world.requests[i].id == id;
    }
  }

  lemma {:induction false} ServeAll(s: Sys, k: nat, p: Policy, bad: Id)
    requires WorldValid(s.world, p) && Doomed(s.world, bad) && k <= |s.world.requests|
    ensures var r := DrainFrom(s, k);
            && Doomed(r.state.world, bad) && AllQuiet(s.world, r.state.world)
            && r.state.env == s.env.(life := r.state.env.life)
    decreases |s.world.requests| - k
  {
    hide ValidPath, DrainOne, Doomed;
    if k < |s.world.requests| {
      ServeOne(s, k, p, bad);
      DrainOneValid(s, k, p);
      var one := DrainOne(s, k);
      if one.Done? { ServeAll(one.state, k + 1, p, bad); }
    }
  }

  lemma ClaimDoomed(s: Sys, p: Policy, bad: Id)
    requires WorldValid(s.world, p) && Doomed(s.world, bad)
    ensures Doomed(ClaimAndRun(s, p).state.world, bad)
  {
    hide ValidPath, RunClaimed, Endless, Claimable, FirstCandidate;
    var found := FirstCandidate(s.world, s.world.listing, s.env.now);
    if found == Some(bad) {
      var t := ReadSysClock(s).1;
      JobAt(t, bad, p);
      ClaimEndless(JobFor(t, bad), t.world.instance, s.env.now, p);
      if s.world.Row(bad).state != Planned {
        RunClaimedOn(JobFor(t, bad), t.world.instance, s.env.now, p, s.world.paths[bad]);
        NeverBackToPlanned(s.world.paths[bad], RunClaimed(JobFor(t, bad), t.world.instance, s.env.now, p).state.path,
                           p.coordinator.Limit());
      }
    }
  }

  lemma TickDoomed(s: Sys, p: Policy, bad: Id)
    requires WorldValid(s.world, p) && Doomed(s.world, bad)
    ensures Doomed(Tick(s, p).state.world, bad)
  {
    hide ValidPath, ReconcileAll, DrainFrom, ClaimAndRun, ActiveIds, Endless, Claimable;
    ReconcileDoomed(s, ActiveIds(s.world, s.world.listing), p, bad);
    ReconcileAllValid(s, ActiveIds(s.world, s.world.listing), p);
    var reconciled := Reconcile(s, p.coordinator);
    assert Doomed(reconciled.state.world, bad) && WorldValid(reconciled.state.world, p);
    if reconciled.Done? {
      ServeAll(reconciled.state, 0, p, bad);
      DrainFromValid(reconciled.state, 0, p);
      var drained := DrainFrom(reconciled.state, 0);
      if drained.Done? { ClaimDoomed(drained.state, p, bad); }
    }
  }

  // No operation asks to cancel it.
  ghost predicate Unasked(ops: seq<Op>, bad: Id) { forall op <- ops :: op.Ask? && op.cancel ==> op.id != bad }

  lemma DoomedStep(w: World, op: Op, p: Policy, bad: Id)
    requires WorldValid(w, p) && Doomed(w, bad) && (op.Ask? && op.cancel ==> op.id != bad)
    ensures Doomed(Apply(w, op, p), bad)
  {
    hide ValidPath, Tick, Endless, Claimable, Insert, TargetFree;
    match op
    case TickWith(env) => TickDoomed(Sys(w, env), p, bad);
    case _ =>
  }

  // An endless row stays endless, whatever is answered and however many processes come and go:
  // unless it is cancelled before it begins it is never over.
  lemma {:induction false} EndlessForever(w: World, ops: seq<Op>, p: Policy, bad: Id)
    requires WorldValid(w, p) && Doomed(w, bad) && Unasked(ops, bad)
    ensures var w' := ApplyEach(w, ops, p);
            WorldValid(w', p) && WorldExtends(w, w') && Doomed(w', bad) && !Terminal(w'.Row(bad).state)
  {
    hide ValidPath, Apply, Endless;
    if ops == [] {
      SelfExtends(w);
    } else {
      var earlier, op := ops[..|ops| - 1], ops[|ops| - 1];
      assert op in ops && forall o <- earlier :: o in ops;
      EndlessForever(w, earlier, p, bad);
      var w1 := ApplyEach(w, earlier, p);
      ApplyValid(w1, op, p);
      WorldExtendsTransitive(w, w1, Apply(w1, op, p));
      DoomedStep(w1, op, p, bad);
    }
  }

  /******* Everything younger starves *******/

  // The restart is behind it, its lease is free, and nothing older can be claimed.
  ghost predicate Starving(w: World, p: Policy, bad: Id) {
    && WorldValid(w, p) && InOrder(w) && w.reconciled && Doomed(w, bad) && w.Row(bad).owner.None?
    && NothingOlder(w, bad)
  }

  ghost predicate NothingOlder(w: World, id: Id)
    requires id in w.paths
  {
    forall other :: other in w.paths && other != id && Older(w, other, id) ==> !Claimable(w.Row(other).state)
  }

  lemma NothingOlderKept(w: World, w': World, p: Policy, id: Id)
    requires WorldValid(w', p) && WorldExtends(w, w') && w'.paths.Keys == w.paths.Keys && id in w.paths && NothingOlder(w, id)
    requires forall other :: other in w.paths && other != id && !Claimable(w.Row(other).state) ==>
               !Claimable(w'.Row(other).state)
    ensures NothingOlder(w', id)
  {
    hide ValidPath, Claimable, Extends;
    OrderOfOld(w, w', p);
  }

  // No port call was made for any other experiment.
  ghost predicate Unserved(w: World, w': World, bad: Id) {
    forall id :: id in w'.paths && id != bad ==>
      w'.paths[id].cell.log == if id in w.paths then w.paths[id].cell.log else Silent
  }

  lemma DrainStarves(s: Sys, p: Policy, bad: Id)
    requires Starving(s.world, p, bad)
    ensures var r := DrainFrom(s, 0);
            Starving(r.state.world, p, bad) && Unserved(s.world, r.state.world, bad)
  {
    hide ValidPath, DrainFrom, Doomed, Claimable, SortedIds, Once;
    ServeAll(s, 0, p, bad);
    DrainFromValid(s, 0, p);
    var w' := DrainFrom(s, 0).state.world;
    SortedKept(s.world, w', p, s.world.listing);
    DoomedKnown(s.world, bad);
    NothingOlderKept(s.world, w', p, bad);
  }

  lemma DoomedKnown(w: World, bad: Id)
    requires Doomed(w, bad)
    ensures bad in w.paths && Claimable(w.Row(bad).state)
  {
  }

  lemma ClaimStarves(s: Sys, p: Policy, bad: Id)
    requires Starving(s.world, p, bad)
    ensures var r := ClaimAndRun(s, p);
            !r.Died? ==> Starving(r.state.world, p, bad) && Unserved(s.world, r.state.world, bad)
  {
    hide ValidPath, RunClaimed, Endless, Claimable, SortedIds, Once, FirstCandidate, ClaimAndRun;
    FirstExactly(s.world, s.env.now, bad);
    ClaimServes(s, p);
    ClaimDoomed(s, p, bad);
    ClaimValid(s, p);
    var t := ReadSysClock(s).1;
    JobAt(t, bad, p);
    ClaimEndless(JobFor(t, bad), t.world.instance, s.env.now, p);
    var w' := ClaimAndRun(s, p).state.world;
    SortedKept(s.world, w', p, s.world.listing);
    NothingOlderKept(s.world, w', p, bad);
  }

  lemma TickStarves(s: Sys, p: Policy, bad: Id)
    requires Starving(s.world, p, bad) && !Tick(s, p).Died?
    ensures var w' := Tick(s, p).state.world; Starving(w', p, bad) && Unserved(s.world, w', bad)
  {
    hide DrainFrom, ClaimAndRun, Starving;
    assert s.world.reconciled && s.world.Indexed() by { StarvingKnown(s.world, p, bad); }
    DrainStarves(s, p, bad);
    var drained := DrainFrom(s, 0);
    if drained.Done? { ClaimStarves(drained.state, p, bad); }
  }

  lemma StarvingKnown(w: World, p: Policy, bad: Id)
    requires Starving(w, p, bad)
    ensures w.reconciled && w.Indexed() && bad in w.paths
  {
  }

  // No restart, no death, no cancellation of this row, and nothing scheduled ahead of it.
  ghost predicate Undisturbed(w: World, ops: seq<Op>, p: Policy, bad: Id)
    requires w.Indexed() && bad in w.paths
  {
    ops != [] ==>
      && var earlier, op := ops[..|ops| - 1], ops[|ops| - 1];
         && Undisturbed(w, earlier, p, bad)
         && match op
            case Restart => false
            case Ask(id, cancel, _, _) => cancel ==> id != bad
            case Schedule(id, _, _, _, now, _, _) =>
              now > w.Row(bad).createdAt || (now == w.Row(bad).createdAt && id > bad)
            case TickWith(env) => !Tick(Sys(ApplyEach(w, earlier, p), env), p).Died?
  }

  lemma ScheduleStarves(w: World, op: Op, p: Policy, bad: Id)
    requires Starving(w, p, bad) && op.Schedule?
    requires op.now > w.Row(bad).createdAt || (op.now == w.Row(bad).createdAt && op.id > bad)
    ensures var w' := Apply(w, op, p); Starving(w', p, bad) && Unserved(w, w', bad)
  {
    hide ValidPath, Tick, Endless, Claimable, Insert, TargetFree, InOrder;
    ApplyValid(w, op, p);
    ApplyKeepsOrder(w, op, p);
    OrderOfOld(w, Apply(w, op, p), p);
  }

  // Behind an oldest row that no pass can end, no port call is ever made for any other experiment,
  // neither for those that wait nor for those scheduled later, although every process lives on.
  lemma {:induction false} StarvedForever(w: World, ops: seq<Op>, p: Policy, bad: Id)
    requires Starving(w, p, bad) && Undisturbed(w, ops, p, bad)
    ensures var w' := ApplyEach(w, ops, p);
            Starving(w', p, bad) && Unserved(w, w', bad) && WorldExtends(w, w')
  {
    hide ValidPath, Tick, Doomed, InOrder, NothingOlder;
    if ops == [] {
      SelfExtends(w);
    } else {
      var earlier, op := ops[..|ops| - 1], ops[|ops| - 1];
      StarvedForever(w, earlier, p, bad);
      var w1 := ApplyEach(w, earlier, p);
      ApplyValid(w1, op, p);
      WorldExtendsTransitive(w, w1, Apply(w1, op, p));
      StarvingKnown(w, p, bad);
      StarvingKnown(w1, p, bad);
      PathKeepsIdentity(w.paths[bad], w1.paths[bad], p.coordinator.Limit());
      StarvedStep(w1, op, p, bad);
    }
  }

  lemma StarvedStep(w: World, op: Op, p: Policy, bad: Id)
    requires Starving(w, p, bad) && Undisturbed(w, [op], p, bad)
    ensures var w' := Apply(w, op, p); Starving(w', p, bad) && Unserved(w, w', bad)
  {
    hide ValidPath, Tick, Doomed, InOrder, NothingOlder;
    assert [op][..0] == [];
    match op
    case TickWith(env) => TickStarves(Sys(w, env), p, bad);
    case Schedule(_, _, _, _, _, _, _) => ScheduleStarves(w, op, p, bad);
    case Ask(_, _, _, _) => AskStarves(w, op, p, bad);
    case Restart =>
  }

  lemma AskStarves(w: World, op: Op, p: Policy, bad: Id)
    requires Starving(w, p, bad) && op.Ask? && (op.cancel ==> op.id != bad)
    ensures var w' := Apply(w, op, p); Starving(w', p, bad) && Unserved(w, w', bad)
  {
    hide ValidPath, Tick, Endless, Claimable;
    ApplyValid(w, op, p);
    ApplyKeepsOrder(w, op, p);
    DoomedStep(w, op, p, bad);
  }
}
