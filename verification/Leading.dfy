/** The oldest experiment that can be claimed gets every turn until it is over, and past its deadline
    it comes to rest within as many ticks as it has cleanup attempts. */
module Leading {
  import opened Wrappers
  import opened Lifecycle
  import opened Rows
  import opened Machine
  import opened Evidence
  import opened Protocol
  import opened Invariants
  import opened Safety
  import opened CoordinatorSpec
  import opened CoordinatorFollows
  import opened CleanupFollows
  import opened Convergence
  import opened Aspects
  import opened SupervisorSpec
  import opened SupervisorFollows
  import opened Runs
  import opened Blocked
  import opened Drain
  import opened Turns
  import opened Starvation
  import Lasting

  // What one pass leaves of a row that had `before` attempts.
  predicate Rested(before: nat, r: Row, limit: nat) {
    Terminal(r.state) || Exhausted(r, limit) || (r.state == CleanupFailed && |r.attempts| == before + 1 < limit)
  }

  lemma ClaimProgress(j: Job, instance: Instance, now: int, p: Policy)
    requires At(j, j.live.state, p.coordinator, j.path) && Claimable(j.live.state) && !j.live.kind.Unlisted?
    requires j.env.now >= j.live.expiresAt && PreflightReturns(j.live, j.env)
    ensures var r := RunClaimed(j, instance, now, p);
            !r.Died? ==> Rested(|j.live.attempts|, r.state.Saved(), p.coordinator.Limit()) && r.state.Saved().owner.None?
  {
    hide CommitAllowed, ValidPath, Extends, RunOnce, ParametersAccepted;
    var cfg := p.coordinator;
    var claiming := j.(live := ClaimRow(j.live, instance, now, p.leaseSeconds));
    LeaseOn(j, claiming, cfg, j.path);
    var claimed := Commit(claiming);
    if claimed.Done? {
      var clock := ReadClock(claimed.state);
      var renewing := clock.1.(live := RenewRow(clock.1.live, instance, clock.0, p.leaseSeconds));
      LeaseOn(clock.1, renewing, cfg, j.path);
      var renewed := Commit(renewing);
      if renewed.Done? {
        Reflexive(renewed.state, cfg, j.path);
        PassProgress(renewed.state, cfg);
        Lasting.LaunchLeft(renewed.state, cfg, HeldBy(Some(instance), renewed.state.live.leaseUntil));
      }
    }
  }

  // First in line and not held by anyone; no cancellation of it waits, and none that would raise.
  ghost predicate Leads(w: World, p: Policy, id: Id) {
    && WorldValid(w, p) && InOrder(w) && w.reconciled && id in w.paths && !w.Row(id).kind.Unlisted?
    && Claimable(w.Row(id).state) && w.Row(id).owner.None? && NothingOlder(w, id)
    && NoPreflightCancel(w, 0) && !CancelPending(w, 0, id)
  }

  lemma {:induction false} DrainCostsLife(s: Sys, k: nat)
    requires k <= |s.world.requests|
    ensures DrainFrom(s, k).state.env == s.env.(life := DrainFrom(s, k).state.env.life)
    decreases |s.world.requests| - k
  {
    hide CancelRow;
    if k < |s.world.requests| {
      var request := s.world.requests[k];
      if request.id in s.world.paths { CancelCostsLife(JobFor(s, request.id), request.requester); }
      var one := DrainOne(s, k);
      assert one.state.env == s.env.(life := one.state.env.life);
      hide DrainOne;
      if one.Done? { DrainCostsLife(one.state, k + 1); }
    }
  }

  lemma DrainedRow(w: World, w': World, other: Id)
    requires Drained(w, w', 0) && other in w.paths && !Claimable(w.Row(other).state)
    ensures w'.Row(other) == w.Row(other)
  {
    hide CancelPending, CancelledOnce;
  }

  lemma SettledRequests(w: World, id: Id)
    requires NonePending(w, 0)
    ensures NoPreflightCancel(w, 0) && !CancelPending(w, 0, id)
  {
  }

  lemma DrainLeads(s: Sys, p: Policy, id: Id)
    requires Leads(s.world, p, id)
    ensures var r := DrainFrom(s, 0);
            && !r.Raised?
            && (r.Done? ==> Leads(r.state.world, p, id) && r.state.world.Row(id) == s.world.Row(id))
  {
    hide ValidPath, DrainFrom, Claimable, SortedIds, Once, CancelPending;
    DrainEffect(s, 0);
    DrainFromValid(s, 0, p);
    var r := DrainFrom(s, 0);
    if r.Done? {
      var w' := r.state.world;
      SortedKept(s.world, w', p, s.world.listing);
      forall other | other in s.world.paths && other != id && !Claimable(s.world.Row(other).state)
        ensures !Claimable(w'.Row(other).state)
      {
        DrainedRow(s.world, w', other);
      }
      NothingOlderKept(s.world, w', p, id);
      SettledRequests(w', id);
    }
  }

  // What the leader's turn leaves: over, or still first in line.
  ghost predicate After(w: World, p: Policy, id: Id, before: nat) {
    && WorldValid(w, p) && id in w.paths && Rested(before, w.Row(id), p.coordinator.Limit())
    && (Terminal(w.Row(id).state) || Leads(w, p, id))
  }

  lemma ClaimLeads(s: Sys, p: Policy, id: Id)
    requires Leads(s.world, p, id) && s.env.now >= s.world.Row(id).expiresAt && PreflightReturns(s.world.Row(id), s.env)
    ensures var r := ClaimAndRun(s, p); !r.Died? ==> After(r.state.world, p, id, |s.world.Row(id).attempts|)
  {
    hide ValidPath, RunClaimed, SortedIds, Once, FirstCandidate, ClaimAndRun, PreflightReturns, CancelPending;
    FirstExactly(s.world, s.env.now, id);
    ClaimServes(s, p);
    ClaimValid(s, p);
    var t := ReadSysClock(s).1;
    JobAt(t, id, p);
    LaterAnswers(s, id);
    ClaimProgress(JobFor(t, id), t.world.instance, s.env.now, p);
    var w' := ClaimAndRun(s, p).state.world;
    SortedKept(s.world, w', p, s.world.listing);
    NothingOlderKept(s.world, w', p, id);
    PathKeepsIdentity(s.world.paths[id], w'.paths[id], p.coordinator.Limit());
    SameRequests(s.world, w');
  }

  // Reading the clock takes no answer away.
  lemma LaterAnswers(s: Sys, id: Id)
    requires id in s.world.paths && PreflightReturns(s.world.Row(id), s.env)
    ensures var t := ReadSysClock(s).1; PreflightReturns(t.world.Row(id), t.env) && t.env.now >= s.env.now
  {
  }

  lemma SameRequests(w: World, w': World)
    requires w'.requests == w.requests
    ensures forall id :: CancelPending(w', 0, id) <==> CancelPending(w, 0, id)
  {
  }

  lemma LeaderTick(s: Sys, p: Policy, id: Id)
    requires Leads(s.world, p, id) && s.env.now >= s.world.Row(id).expiresAt && PreflightReturns(s.world.Row(id), s.env)
    ensures var r := Tick(s, p); !r.Died? ==> After(r.state.world, p, id, |s.world.Row(id).attempts|)
  {
    hide DrainFrom, ClaimAndRun, Leads, After, PreflightReturns;
    LeaderKnown(s.world, p, id);
    DrainLeads(s, p, id);
    DrainCostsLife(s, 0);
    var drained := DrainFrom(s, 0);
    if drained.Done? {
      LifeIrrelevant(s, drained.state.env.life, id);
      ClaimLeads(drained.state, p, id);
    }
  }

  lemma LeaderKnown(w: World, p: Policy, id: Id)
    requires Leads(w, p, id)
    ensures w.reconciled && w.Indexed() && id in w.paths && WorldValid(w, p)
  {
  }

  lemma LifeIrrelevant(s: Sys, life: nat, id: Id)
    requires id in s.world.paths && PreflightReturns(s.world.Row(id), s.env)
    ensures PreflightReturns(s.world.Row(id), s.env.(life := life))
  {
  }

  /******* Any number of ticks *******/

  // Successive ticks, each with the answers of its own environment; None if a process died.
  function TickAll(w: World, envs: seq<Env>, p: Policy): (r: Option<World>)
    requires w.Indexed()
    ensures r.Some? ==> r.value.Indexed()
  {
    if envs == [] then Some(w)
    else
      var earlier := TickAll(w, envs[..|envs| - 1], p);
      if earlier.None? then None
      else
        var r := Tick(Sys(earlier.value, envs[|envs| - 1]), p);
        if r.Died? then None else Some(r.state.world)
  }

  // After `done` ticks: over, or first in line with no attempt left or that many spent.
  ghost predicate Advanced(w: World, p: Policy, id: Id, done: nat) {
    && WorldValid(w, p) && id in w.paths
    && var r := w.Row(id);
       || Terminal(r.state)
       || (Leads(w, p, id) && (Exhausted(r, p.coordinator.Limit()) ||
                               (r.state == CleanupFailed && done <= |r.attempts| < p.coordinator.Limit())))
  }

  lemma AdvanceOne(w: World, env: Env, p: Policy, id: Id, done: nat)
    requires Advanced(w, p, id, done) && env.now >= w.Row(id).expiresAt
    ensures var r := Tick(Sys(w, env), p); !r.Died? ==> Advanced(r.state.world, p, id, done + 1)
  {
    hide ValidPath, Tick, Leads;
    TickValid(Sys(w, env), p);
    if Terminal(w.Row(id).state) {
      TerminalIsFinal(w.paths[id], Tick(Sys(w, env), p).state.world.paths[id], p.coordinator.Limit());
    } else {
      LeaderTick(Sys(w, env), p, id);
    }
  }

  lemma {:induction false} TicksAdvance(w: World, envs: seq<Env>, p: Policy, id: Id)
    requires Leads(w, p, id) && envs != [] && PreflightReturns(w.Row(id), envs[0])
    requires forall env <- envs :: env.now >= w.Row(id).expiresAt
    ensures var q := TickAll(w, envs, p);
            q.Some? ==> Advanced(q.value, p, id, |envs|) && WorldExtends(w, q.value)
  {
    hide ValidPath, Tick, Leads, PreflightReturns, Extends;
    LeaderKnown(w, p, id);
    var n := |envs| - 1;
    if n == 0 {
      assert TickAll(w, envs[..0], p) == Some(w);
      LeaderTick(Sys(w, envs[0]), p, id);
      TickValid(Sys(w, envs[0]), p);
    } else {
      assert envs[..n][0] == envs[0] && forall env <- envs[..n] :: env in envs;
      TicksAdvance(w, envs[..n], p, id);
      var earlier := TickAll(w, envs[..n], p);
      if earlier.Some? {
        PathKeepsIdentity(w.paths[id], earlier.value.paths[id], p.coordinator.Limit());
        assert envs[n] in envs;
        AdvanceOne(earlier.value, envs[n], p, id, n);
        TickValid(Sys(earlier.value, envs[n]), p);
        WorldExtendsTransitive(w, earlier.value, Tick(Sys(earlier.value, envs[n]), p).state.world);
      }
    }
  }

  // Past its deadline, the experiment that is first in line comes to rest within as many ticks as
  // it has cleanup attempts: it is over, or stays in cleaning_up with its attempts used up.
  lemma ConvergesInTurn(w: World, envs: seq<Env>, p: Policy, id: Id)
    requires Leads(w, p, id) && |envs| >= p.coordinator.Limit() && PreflightReturns(w.Row(id), envs[0])
    requires forall env <- envs :: env.now >= w.Row(id).expiresAt
    ensures var q := TickAll(w, envs, p); q.Some? ==> id in q.value.paths && Settled(q.value.Row(id), p.coordinator.Limit())
  {
    hide ValidPath, Leads;
    TicksAdvance(w, envs, p, id);
  }
}
