/** What lasts through every tick of every run: facts about one experiment that neither a restart,
    a cancellation nor a claim of any experiment changes. */
module Lasting {
  import opened Wrappers
  import opened Lifecycle
  import opened Rows
  import opened Machine
  import opened Protocol
  import opened CoordinatorSpec
  import opened CoordinatorFollows
  import opened CleanupFollows
  import opened Aspects
  import opened Evidence
  import opened Convergence
  import opened Passable
  import Scenarios
  import opened SupervisorSpec
  import opened SupervisorFollows
  import opened Cancellation
  import opened Safety

  /******* One row *******/

  // The aspects that last: never in verifying, no memory of a cancellation once cleanup has begun
  // without one, and who signed the log.
  predicate Lasts(r: Row, a: Aspect) {
    && (a.NeverVerifying? || a.NeverMarked? || a.SignedBy?) && Shows(r, a)
    && (a.NeverMarked? ==> PastInjection(r.state))
  }

  lemma LaunchLeft(j: Job, cfg: Config, a: Aspect)
    requires Kept(j, a) && !a.Tried? && Suits(a, cfg, false)
    ensures Left(Launch(j, cfg), a)
  {
    hide Shows, Suits, RunOnce;
    if !j.live.kind.Unlisted? { RunOnceKept(j, cfg, a); }
  }

  lemma ReconcileRowLeft(j: Job, cfg: Config, a: Aspect)
    requires j.Clean() && Lasts(j.live, a) && Suits(a, cfg, false)
    ensures Left(ReconcileRow(j, cfg), a)
  {
    hide Shows, Launch, TransitAndCommit;
    StepKept(j, CleaningUp, RestartUncertainInjection, cfg.actor, a);
    var moved := if j.live.state == Injecting then TransitAndCommit(j, CleaningUp, RestartUncertainInjection, cfg.actor)
                 else Done(j.live.state, j);
    LaunchLeft(moved.state, cfg, a);
  }

  lemma CancelRowLeft(j: Job, requester: string, a: Aspect)
    requires j.Clean() && Lasts(j.live, a) && (a.SignedBy? ==> requester in a.askers)
    ensures Shows(CancelRow(j, requester).state.Saved(), a)
  {
    if a.NeverMarked? {
      NothingToCancel(j, requester);
      hide CancelRow;
    } else {
      StepKept(j, Cancelled, AbortRequested, requester, a);
      StepKept(j, CancellationRequested, AbortRequested, requester, a);
      CommitKept(j, requester, Cancelled, a);
      CommitKept(j, requester, CancellationRequested, a);
      hide Transit, Shows;
    }
  }

  lemma NothingToCancel(j: Job, requester: string)
    requires j.Clean() && PastInjection(j.live.state)
    ensures CancelRow(j, requester).state.Saved() == j.Saved()
  {
  }

  lemma CommitKept(j: Job, requester: string, target: State, a: Aspect)
    requires Kept(Transit(j, target, AbortRequested, requester).state, a)
    ensures Kept(Commit(Transit(j, target, AbortRequested, requester).state).state, a)
  {
    hide Transit, Shows;
  }

  lemma CommitShows(j: Job, k: Job, a: Aspect)
    requires Kept(j, a) && !a.HeldBy? && k.path == j.path
    requires k.live == j.live.(owner := k.live.owner, leaseUntil := k.live.leaseUntil)
    ensures Kept(Commit(k).state, a)
  {
  }

  lemma RunClaimedLeft(j: Job, instance: Instance, now: int, p: Policy, a: Aspect)
    requires j.Clean() && Lasts(j.live, a) && Suits(a, p.coordinator, false)
    ensures Shows(RunClaimed(j, instance, now, p).state.Saved(), a)
  {
    hide Shows, Launch, Suits;
    var claiming := j.(live := ClaimRow(j.live, instance, now, p.leaseSeconds));
    CommitShows(j, claiming, a);
    var claimed := Commit(claiming);
    if claimed.Done? {
      var clock := ReadClock(claimed.state);
      var renewing := clock.1.(live := RenewRow(clock.1.live, instance, clock.0, p.leaseSeconds));
      CommitShows(clock.1, renewing, a);
      var renewed := Commit(renewing);
      if renewed.Done? {
        LaunchLeft(renewed.state, p.coordinator, a);
        var launched := Launch(renewed.state, p.coordinator);
        if !launched.Died? {
          CommitShows(launched.state, launched.state.(live := ReleaseRow(launched.state.live, instance)), a);
        }
      }
    }
  }

  /******* Every tick *******/

  predicate Holds(w: World, id: Id, a: Aspect) { id in w.paths && Lasts(w.Row(id), a) }

  // Those who asked to cancel the experiment.
  function Askers(w: World, id: Id): set<string> {
    set r <- w.requests | r.id == id && r.cancel :: r.requester
  }

  // Everyone who may abort it is among the aspect's askers.
  predicate AskersKnown(w: World, id: Id, a: Aspect) { a.SignedBy? ==> Askers(w, id) <= a.askers }

  lemma DrainKeepsAskers(s: Sys, k: nat, id: Id)
    requires k < |s.world.requests|
    ensures Askers(DrainOne(s, k).state.world, id) == Askers(s.world, id)
  {
    hide CancelRow;
    var was, now := s.world.requests, DrainOne(s, k).state.world.requests;
    assert forall i :: 0 <= i < |was| ==> now[i] == was[i].(pending := now[i].pending);
    forall who | who in Askers(s.world, id) ensures who in Askers(DrainOne(s, k).state.world, id) {
      var i :| 0 <= i < |was| && was[i].id == id && was[i].cancel && was[i].requester == who;
      assert now[i] in now;
    }
    forall who | who in Askers(DrainOne(s, k).state.world, id) ensures who in Askers(s.world, id) {
      var i :| 0 <= i < |now| && now[i].id == id && now[i].cancel && now[i].requester == who;
      assert was[i] in was;
    }
  }

  lemma ExtendedHolds(w: World, w': World, p: Policy, id: Id, a: Aspect)
    requires Holds(w, id, a) && WorldValid(w', p) && WorldExtends(w, w') && Shows(w'.Row(id), a)
    ensures Holds(w', id, a)
  {
    hide Shows, ValidPath;
    if a.NeverMarked? { PastStays(w.paths[id], w'.paths[id], p.coordinator.Limit()); }
  }

  lemma {:induction false} ReconcileHolds(s: Sys, ids: seq<Id>, p: Policy, id: Id, a: Aspect)
    requires WorldValid(s.world, p) && Holds(s.world, id, a) && Suits(a, p.coordinator, false)
    requires forall i <- ids :: i in s.world.paths
    ensures Holds(ReconcileAll(s, ids, p.coordinator).state.world, id, a)
    decreases |ids|
  {
    hide ValidPath, CommitAllowed, ReconcileRow, Lasts, Suits;
    if ids != [] {
      JobAt(s, ids[0], p);
      var r := ReconcileRow(JobFor(s, ids[0]), p.coordinator);
      ReconcileRowOn(JobFor(s, ids[0]), p.coordinator, s.world.paths[ids[0]]);
      LiftValid(s, ids[0], r, p);
      if ids[0] == id { ReconcileRowLeft(JobFor(s, id), p.coordinator, a); }
      var lifted := Lift(s, ids[0], r);
      RowShows(s.world, id, a);
      ExtendedHolds(s.world, lifted.state.world, p, id, a);
      if lifted.Done? { ReconcileHolds(lifted.state, ids[1..], p, id, a); }
    }
  }

  lemma RowShows(w: World, id: Id, a: Aspect)
    requires Holds(w, id, a)
    ensures Shows(w.Row(id), a)
  {
  }

  lemma DrainOneHolds(s: Sys, k: nat, p: Policy, id: Id, a: Aspect)
    requires WorldValid(s.world, p) && Holds(s.world, id, a) && AskersKnown(s.world, id, a) && k < |s.world.requests|
    ensures Holds(DrainOne(s, k).state.world, id, a)
  {
    hide ValidPath, CommitAllowed, CancelRow, Lasts, WorldValid;
    var request := s.world.requests[k];
    DrainOneValid(s, k, p);
    RowShows(s.world, id, a);
    if request.id == id && request.cancel {
      assert request in s.world.requests && request.requester in Askers(s.world, id);
      CancelRowLeft(JobFor(s, id), request.requester, a);
    }
    ExtendedHolds(s.world, DrainOne(s, k).state.world, p, id, a);
  }

  lemma {:induction false} DrainHolds(s: Sys, k: nat, p: Policy, id: Id, a: Aspect)
    requires WorldValid(s.world, p) && Holds(s.world, id, a) && AskersKnown(s.world, id, a) && k <= |s.world.requests|
    ensures Holds(DrainFrom(s, k).state.world, id, a)
    decreases |s.world.requests| - k
  {
    hide DrainOne, WorldValid, Lasts;
    if k < |s.world.requests| {
      DrainOneHolds(s, k, p, id, a);
      DrainOneValid(s, k, p);
      DrainKeepsAskers(s, k, id);
      var one := DrainOne(s, k);
      if one.Done? { DrainHolds(one.state, k + 1, p, id, a); }
    }
  }

  lemma ClaimHolds(s: Sys, p: Policy, id: Id, a: Aspect)
    requires WorldValid(s.world, p) && Holds(s.world, id, a) && Suits(a, p.coordinator, false)
    ensures Holds(ClaimAndRun(s, p).state.world, id, a)
  {
    hide RunClaimed, Lasts, Suits, ValidPath;
    ClaimValid(s, p);
    RowShows(s.world, id, a);
    var (now, t) := ReadSysClock(s);
    if FirstCandidate(t.world, t.world.listing, now) == Some(id) {
      RunClaimedLeft(JobFor(t, id), t.world.instance, now, p, a);
    }
    ExtendedHolds(s.world, ClaimAndRun(s, p).state.world, p, id, a);
  }

  lemma TickHolds(s: Sys, p: Policy, id: Id, a: Aspect)
    requires WorldValid(s.world, p) && Holds(s.world, id, a) && AskersKnown(s.world, id, a) && Suits(a, p.coordinator, false)
    ensures Holds(Tick(s, p).state.world, id, a)
  {
    hide ValidPath, ReconcileAll, DrainFrom, ClaimAndRun, ActiveIds, Lasts, Suits;
    ReconcileHolds(s, ActiveIds(s.world, s.world.listing), p, id, a);
    ReconcileAllValid(s, ActiveIds(s.world, s.world.listing), p);
    var reconciled := Reconcile(s, p.coordinator);
    assert Holds(reconciled.state.world, id, a) && WorldValid(reconciled.state.world, p);
    if reconciled.Done? {
      DrainHolds(reconciled.state, 0, p, id, a);
      DrainFromValid(reconciled.state, 0, p);
      var drained := DrainFrom(reconciled.state, 0);
      if drained.Done? { ClaimHolds(drained.state, p, id, a); }
    }
  }

  // ... and through every operation, in any number of runs of any number of processes.
  lemma {:induction false} LastsForever(w: World, ops: seq<Op>, p: Policy, id: Id, a: Aspect)
    requires WorldValid(w, p) && Holds(w, id, a) && !a.SignedBy? && Suits(a, p.coordinator, false)
    ensures var w' := ApplyEach(w, ops, p); WorldValid(w', p) && WorldExtends(w, w') && Holds(w', id, a)
  {
    hide ValidPath, Tick, Lasts, Suits;
    if ops != [] {
      var earlier, op := ops[..|ops| - 1], ops[|ops| - 1];
      LastsForever(w, earlier, p, id, a);
      var w1 := ApplyEach(w, earlier, p);
      ApplyValid(w1, op, p);
      WorldExtendsTransitive(w, w1, Apply(w1, op, p));
      if op.TickWith? { TickHolds(Sys(w1, op.env), p, id, a); }
    }
  }

  /******* A forgotten cancellation *******/

  // Once a process died between the move to cleaning_up and the mark, the cancellation is forgotten
  // for good: in no continuation does the experiment end as cancelled.
  lemma ForgottenForever(w: World, ops: seq<Op>, p: Policy, id: Id)
    requires WorldValid(w, p) && id in w.paths && w.Row(id).state in {CleaningUp, CleanupFailed}
    requires Mentions(w.Row(id).audit, CancellationRequested) && w.Row(id).outcome != Some(CancelledPending)
    ensures var w' := ApplyEach(w, ops, p);
            && id in w'.paths && w'.Row(id).state != Cancelled
            && Mentions(w'.Row(id).audit, CancellationRequested) && w'.Row(id).outcome != Some(CancelledPending)
  {
    LastsForever(w, ops, p, id, NeverMarked);
    var w' := ApplyEach(w, ops, p);
    PathKeepsMention(w.paths[id], w'.paths[id], p.coordinator.Limit());
    hide ValidPath, Mentions;
  }

  lemma MarkedNeverPasses(j: Job, cfg: Config)
    ensures var r := CleanupMarked(j, true, cfg); r.Done? ==> r.value != Passed
  {
    hide AttemptCleanup, Scenarios.VerifyCleanup, Observe;
  }

  lemma EnterKeepsOutcome(j: Job, cfg: Config)
    ensures var r := EnterCleanup(j, cfg); r.Done? ==> r.state.live.outcome == j.live.outcome
  {
  }

  lemma RememberedNeverPasses(j: Job, cfg: Config)
    requires NeedsCleanup(j.live.state) && Remembers(j.live)
    ensures var r := RunOnce(j, cfg); r.Done? ==> r.value != Passed
  {
    hide CleanupMarked, TransitAndCommit;
    EnterKeepsOutcome(Note(j, Entered), cfg);
    var entered := EnterCleanup(Note(j, Entered), cfg);
    assert RunOnce(j, cfg) == Retire(Note(j, Entered), cfg);
    if entered.Done? {
      var marked := MarkCancelled(entered.state, true);
      MarkedNeverPasses(marked.state, cfg);
    }
  }

  // Which of the two ends a pass over an owned row can reach is decided beforehand, by what the row
  // remembers: some answers end it as cancelled exactly when it remembers a cancellation, and as
  // passed exactly when it does not.
  lemma EndDecidedByMemory(path: Path, cfg: Config)
    requires ValidPath(path, cfg.Limit()) && NeedsCleanup(path.cell.row.state)
    requires Owned(path.cell.row.kind, path.cell.row.context)
    ensures var row := path.cell.row;
            && ((exists env :: PassEnds(path, env, cfg, Cancelled)) <==> Remembers(row))
            && ((exists env :: PassEnds(path, env, cfg, Passed)) <==> !Remembers(row))
  {
    hide ValidPath, RunOnce, Owned, Enough;
    var row := path.cell.row;
    PassPaid(path, NOTHING, cfg, path);
    assert PassEnds(path, Enough(row, NOTHING, cfg), cfg, if Remembers(row) then Cancelled else Passed);
    var other := if Remembers(row) then Passed else Cancelled;
    forall env ensures !PassEnds(path, env, cfg, other) {
      var j := Job(path, row, env);
      JobOnPath(path, env, cfg);
      if Remembers(row) { RememberedNeverPasses(j, cfg); }
      else {
        RunOnceKept(j, cfg, NeverMarked);
        RunOnceOn(j, cfg, path);
      }
    }
  }

  predicate PassEnds(path: Path, env: Env, cfg: Config, state: State) {
    RunOnce(Job(path, path.cell.row, env), cfg).Done? && RunOnce(Job(path, path.cell.row, env), cfg).value == state
  }

  /******* Without an observer *******/

  lemma {:induction false} UnobservedNeverVerifies(ops: seq<Op>, p: Policy, id: Id)
    requires !p.coordinator.observed && id in Run(ops, p).paths
    ensures Run(ops, p).Row(id).state != Verifying
  {
    hide ValidPath, Tick;
    if ops != [] {
      var earlier, op := ops[..|ops| - 1], ops[|ops| - 1];
      var w := Run(earlier, p);
      EveryRunFollows(earlier, p);
      if id in w.paths {
        UnobservedNeverVerifies(earlier, p, id);
        if op.TickWith? { TickHolds(Sys(w, op.env), p, id, NeverVerifying); }
      }
    }
  }
}
