/** Whose turn a tick gives, what an experiment that can never end does to the others, and when the
    oldest one comes to rest. */
module Turns {
  import opened Wrappers
  import opened Lifecycle
  import opened Rows
  import opened Machine
  import opened Evidence
  import opened Protocol
  import opened Invariants
  import opened Safety
  import opened CoordinatorSpec
  import opened CoordinatorFollows
  import opened CleanupFollows
  import opened Convergence
  import opened Aspects
  import opened Passable
  import opened SupervisorSpec
  import opened SupervisorFollows
  import opened Lasting
  import opened Runs
  import opened Blocked
  import opened Drain
  import Scenarios

  /******* Whose turn it is *******/

  // The part of a tick before the claim.
  function BeforeClaim(s: Sys, p: Policy): (r: SysResult<seq<State>>)
    requires s.world.Indexed()
    ensures r.state.world.Indexed() && r.state.world.paths.Keys == s.world.paths.Keys
  {
    var (reconciled, s) :- Reconcile(s, p.coordinator);
    var (_, s) :- DrainFrom(s, 0);
    Done(reconciled, s)
  }

  // The experiment the tick gives a pass to, if it gets that far and there is one.
  function Turn(s: Sys, p: Policy): Option<Id>
    requires s.world.Indexed()
  {
    var b := BeforeClaim(s, p);
    if b.Done? then FirstCandidate(b.state.world, b.state.world.listing, b.state.env.now) else None
  }

  lemma BeforeClaimValid(s: Sys, p: Policy)
    requires WorldValid(s.world, p) && InOrder(s.world)
    ensures var b := BeforeClaim(s, p).state;
            WorldValid(b.world, p) && WorldExtends(s.world, b.world) && InOrder(b.world) && b.world.paths.Keys == s.world.paths.Keys
  {
    hide ValidPath, ReconcileAll, DrainFrom, ActiveIds, SortedIds, Once;
    ReconcileAllValid(s, ActiveIds(s.world, s.world.listing), p);
    var reconciled := Reconcile(s, p.coordinator);
    assert WorldValid(reconciled.state.world, p) && WorldExtends(s.world, reconciled.state.world);
    if reconciled.Done? {
      DrainFromValid(reconciled.state, 0, p);
      WorldExtendsTransitive(s.world, reconciled.state.world, DrainFrom(reconciled.state, 0).state.world);
    }
    SortedKept(s.world, BeforeClaim(s, p).state.world, p, s.world.listing);
  }

  lemma OlderOneWay(w: World)
    ensures forall a, b :: a in w.paths && b in w.paths && a != b ==> (Older(w, a, b) <==> !Older(w, b, a))
  {
  }

  // Selectable with a free lease, and no older row is.
  ghost predicate NextInLine(w: World, id: Id, now: int) {
    && id in w.paths && Candidate(w.Row(id), now)
    && forall other :: other in w.paths && other != id && Older(w, other, id) ==> !Candidate(w.Row(other), now)
  }

  lemma FirstExactly(w: World, now: int, id: Id)
    requires InOrder(w)
    ensures FirstCandidate(w, w.listing, now) == Some(id) <==> NextInLine(w, id, now)
  {
    FirstIsOldest(w, w.listing, now);
    OlderOneWay(w);
    hide SortedIds, Older, FirstCandidate, Candidate;
  }

  // After the drain a tick does what the claim does and nothing else.
  lemma TickSplits(s: Sys, p: Policy)
    requires s.world.Indexed()
    ensures var b := BeforeClaim(s, p);
            Tick(s, p).state == if b.Done? then ClaimAndRun(b.state, p).state else b.state
    ensures var b := BeforeClaim(s, p);
            Tick(s, p).Died? <==> b.Died? || (b.Done? && ClaimAndRun(b.state, p).Died?)
  {
    hide ReconcileAll, DrainFrom, ActiveIds, ClaimAndRun;
  }

  lemma ClaimServes(s: Sys, p: Policy)
    requires s.world.Indexed()
    ensures var found := FirstCandidate(s.world, s.world.listing, s.env.now);
            var r := ClaimAndRun(s, p);
            && (found.Some? ==>
                  var run := RunClaimed(JobFor(ReadSysClock(s).1, found.value), s.world.instance, s.env.now, p);
                  r.state == Merge(ReadSysClock(s).1, found.value, run.state) && (r.Died? <==> run.Died?))
            && (found.None? ==> r.state.world == s.world && !r.Died?)
  {
    hide RunClaimed, FirstCandidate;
  }

  // A tick gives its one pass to an experiment exactly when it gets as far as the claim, the row is
  // selectable with a free lease, and no older one is.
  lemma TurnExactly(s: Sys, p: Policy, id: Id)
    requires WorldValid(s.world, p) && InOrder(s.world)
    ensures var b := BeforeClaim(s, p);
            Turn(s, p) == Some(id) <==> b.Done? && NextInLine(b.state.world, id, b.state.env.now)
  {
    BeforeClaimValid(s, p);
    hide BeforeClaim, FirstCandidate, WorldValid, InOrder, NextInLine;
    var b := BeforeClaim(s, p).state;
    FirstExactly(b.world, b.env.now, id);
  }

  // And that pass is all that happens after the drain: no other experiment is touched.
  lemma TurnIsAll(s: Sys, p: Policy, id: Id)
    requires s.world.Indexed() && id in s.world.paths
    ensures var b := BeforeClaim(s, p).state;
            Tick(s, p).state.world.paths[id] ==
            if Turn(s, p) == Some(id)
            then RunClaimed(JobFor(ReadSysClock(b).1, id), b.world.instance, b.env.now, p).state.path
            else b.world.paths[id]
  {
    TickSplits(s, p);
    ClaimServes(BeforeClaim(s, p).state, p);
    hide BeforeClaim, Tick, ClaimAndRun, RunClaimed, FirstCandidate;
  }

  /******* What a tick returns, and the restart it makes once *******/

  lemma ClaimReturns(j: Job, instance: Instance, now: int, p: Policy)
    requires At(j, j.live.state, p.coordinator, j.path) && Claimable(j.live.state)
    ensures var r := RunClaimed(j, instance, now, p); r.Done? ==> r.value == [r.state.Saved().state]
  {
    hide CommitAllowed, ValidPath, Extends, RunOnce;
    var cfg := p.coordinator;
    var claiming := j.(live := ClaimRow(j.live, instance, now, p.leaseSeconds));
    LeaseOn(j, claiming, cfg, j.path);
    var claimed := Commit(claiming);
    if claimed.Done? {
      var clock := ReadClock(claimed.state);
      var renewing := clock.1.(live := RenewRow(clock.1.live, instance, clock.0, p.leaseSeconds));
      LeaseOn(clock.1, renewing, cfg, j.path);
      var renewed := Commit(renewing);
      if renewed.Done? && !j.live.kind.Unlisted? { RunOnceOn(renewed.state, cfg, j.path); }
    }
  }

  // A tick that returns hands back what the restart handed back and then the state its one pass left
  // durable.
  lemma TickReturns(s: Sys, p: Policy)
    requires WorldValid(s.world, p) && InOrder(s.world) && Tick(s, p).Done?
    ensures var b, turn := BeforeClaim(s, p), Turn(s, p);
            && b.Done? && (turn.Some? ==> turn.value in s.world.paths)
            && Tick(s, p).value == b.value + if turn.Some? then [Tick(s, p).state.world.Row(turn.value).state] else []
  {
    BeforeClaimValid(s, p);
    TickSplitsValue(s, p);
    var b := BeforeClaim(s, p).state;
    hide BeforeClaim, Tick, InOrder;
    ClaimedValue(b, p);
  }

  lemma TickSplitsValue(s: Sys, p: Policy)
    requires s.world.Indexed() && Tick(s, p).Done?
    ensures var b := BeforeClaim(s, p);
            && b.Done? && ClaimAndRun(b.state, p).Done? && Tick(s, p).state == ClaimAndRun(b.state, p).state
            && Tick(s, p).value == b.value + ClaimAndRun(b.state, p).value
  {
    hide ReconcileAll, DrainFrom, ActiveIds, ClaimAndRun;
  }

  lemma ClaimedValue(s: Sys, p: Policy)
    requires WorldValid(s.world, p) && ClaimAndRun(s, p).Done?
    ensures var found := FirstCandidate(s.world, s.world.listing, s.env.now);
            && (found.Some? ==> found.value in s.world.paths)
            && ClaimAndRun(s, p).value == if found.Some? then [ClaimAndRun(s, p).state.world.Row(found.value).state] else []
  {
    hide RunClaimed, ValidPath, CommitAllowed;
    var (now, t) := ReadSysClock(s);
    var found := FirstCandidate(t.world, t.world.listing, now);
    if found.Some? {
      JobAt(t, found.value, p);
      ClaimReturns(JobFor(t, found.value), t.world.instance, now, p);
    }
  }

  // A process reconciles until it has got through once, and then never again.
  lemma ReconciledOnce(s: Sys, p: Policy)
    requires s.world.Indexed()
    ensures Tick(s, p).state.world.reconciled <==> s.world.reconciled || Reconcile(s, p.coordinator).Done?
    ensures s.world.reconciled ==> Reconcile(s, p.coordinator) == Done([], s)
    ensures Reconcile(s, p.coordinator).Raised? || Reconcile(s, p.coordinator).Died? ==>
              Tick(s, p).state == Reconcile(s, p.coordinator).state && !Tick(s, p).Done?
  {
    hide ReconcileAll, DrainFrom, ActiveIds, ClaimAndRun;
  }
}
