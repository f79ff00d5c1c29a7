/** The supervisor of one agent process, as it works through a tick step by step. */
module Supervision {
  import opened Wrappers
  import opened Lifecycle
  import opened Rows
  import opened Machine
  import opened CoordinatorSpec
  import opened Protocol
  import opened CoordinatorFollows
  import opened SupervisorSpec
  import opened SupervisorFollows
  import opened Process
  import opened Coordinator

  // The whole system after a call on one experiment that left the rest alone.
  lemma MergedRest(s: Sys, id: Id, s': Sys, j: Job)
    requires id in s.world.paths && id in s'.world.paths && s'.world.paths - {id} == s.world.paths - {id}
    requires s'.world == s.world.(paths := s'.world.paths)
    requires j.path == s'.world.paths[id] && j.env == s'.env
    ensures s' == Merge(s, id, j)
  {
    var merged := s.world.paths[id := j.path];
    forall other | other in s'.world.paths
      ensures other in merged && merged[other] == s'.world.paths[other]
    {
      if other != id {
        assert other in s'.world.paths - {id};
        assert (s'.world.paths - {id})[other] == (s.world.paths - {id})[other];
      }
    }
    forall other | other in merged ensures other in s'.world.paths {
      if other != id { assert other in s.world.paths - {id}; }
    }
    assert merged == s'.world.paths;
  }

  // Draining from i or from k is the same when nothing in between is pending.
  lemma {:induction false} SkipSettled(s: Sys, i: nat, k: nat)
    requires i <= k <= |s.world.requests|
    requires forall m :: i <= m < k ==> !s.world.requests[m].pending
    ensures DrainFrom(s, i) == DrainFrom(s, k)
    decreases k - i
  {
    if i < k {
      assert DrainOne(s, i) == Done((), s);
      SkipSettled(s, i + 1, k);
    }
  }

  lemma LiftEnded<T>(s: Sys, id: Id, r: Ending<T>, j: Job)
    ensures Lift(s, id, Ended(r, j)) == Ended(r, Merge(s, id, j))
    ensures Ended(r, j).state == j && (Ended(r, j).Died? <==> r.Killed?)
  {
  }

  lemma ReconcileLifts(s: Sys, id: Id, p: Policy)
    requires WorldValid(s.world, p) && id in s.world.paths
    ensures var r := ReconcileRow(JobFor(s, id), p.coordinator);
            WorldValid(Merge(s, id, r.state).world, p) && (!r.Died? ==> r.state.Clean())
  {
    hide ValidPath, CommitAllowed, ReconcileRow;
    JobAt(s, id, p);
    ReconcileRowOn(JobFor(s, id), p.coordinator, s.world.paths[id]);
    LiftValid(s, id, ReconcileRow(JobFor(s, id), p.coordinator), p);
  }

  lemma CancelLifts(s: Sys, id: Id, requester: string, p: Policy)
    requires WorldValid(s.world, p) && id in s.world.paths
    ensures var r := CancelRow(JobFor(s, id), requester);
            WorldValid(Merge(s, id, r.state).world, p) && (!r.Died? ==> r.state.Clean())
  {
    hide ValidPath, CommitAllowed, CancelRow;
    JobAt(s, id, p);
    CancelRowOn(JobFor(s, id), requester, p.coordinator, s.world.paths[id]);
    LiftValid(s, id, CancelRow(JobFor(s, id), requester), p);
  }

  lemma ClaimLifts(s: Sys, id: Id, instance: Instance, now: int, p: Policy)
    requires WorldValid(s.world, p) && id in s.world.paths && Claimable(s.world.Row(id).state)
    ensures var r := RunClaimed(JobFor(s, id), instance, now, p);
            WorldValid(Merge(s, id, r.state).world, p) && (!r.Died? ==> r.state.Clean())
  {
    hide ValidPath, CommitAllowed, RunClaimed;
    JobAt(s, id, p);
    RunClaimedOn(JobFor(s, id), instance, now, p, s.world.paths[id]);
    LiftValid(s, id, RunClaimed(JobFor(s, id), instance, now, p), p);
  }

  // The results so far in front of those still to come.
  function Prefixed(results: seq<State>, r: SysResult<seq<State>>): SysResult<seq<State>> {
    if r.Done? then Done(results + r.value, r.state) else r
  }

  lemma PrefixedNothing(r: SysResult<seq<State>>)
    ensures Prefixed([], r) == r
  {
    if r.Done? { assert [] + r.value == r.value; }
  }

  // One more row reconciled.
  lemma ReconcileStep(s: Sys, ids: seq<Id>, results: seq<State>, cfg: Config)
    requires ids != [] && forall id <- ids :: id in s.world.paths
    ensures var first := Lift(s, ids[0], ReconcileRow(JobFor(s, ids[0]), cfg));
            Prefixed(results, ReconcileAll(s, ids, cfg)) ==
            if first.Done? then Prefixed(results + first.value, ReconcileAll(first.state, ids[1..], cfg))
            else first.PropagateFailure()
  {
    hide ReconcileRow;
    var first := Lift(s, ids[0], ReconcileRow(JobFor(s, ids[0]), cfg));
    if first.Done? {
      var rest := ReconcileAll(first.state, ids[1..], cfg);
      if rest.Done? { assert results + (first.value + rest.value) == (results + first.value) + rest.value; }
    }
  }

  lemma ReconcileNothing(s: Sys, results: seq<State>, cfg: Config)
    ensures Prefixed(results, ReconcileAll(s, [], cfg)) == Done(results, s)
  {
    assert results + [] == results;
  }

  lemma DrainOneTouches(s: Sys, k: nat)
    requires k < |s.world.requests|
    ensures forall m :: 0 <= m < |s.world.requests| && m != k ==>
              DrainOne(s, k).state.world.requests[m] == s.world.requests[m]
  {
    hide CancelRow;
  }

  class Supervisor {
    const agent: Agent
    const policy: Policy
    const instance: Instance
    var reconciled: bool

    constructor (agent: Agent, policy: Policy, instance: Instance)
      ensures this.agent == agent && this.policy == policy && this.instance == instance && !reconciled
    {
      this.agent, this.policy, this.instance, this.reconciled := agent, policy, instance, false;
    }

    ghost function View(): Sys
      reads this, agent
    {
      Sys(World(agent.paths, agent.listing, agent.requests, reconciled, instance), agent.env)
    }

    // Between two steps nothing is pending and every experiment is on the protocol.
    ghost predicate Ready()
      reads this, agent
    {
      agent.Clean() && WorldValid(View().world, policy)
    }

    // The coordinator of one experiment, if its scenario is in the catalog.
    method CoordinatorFor(kind: Kind) returns (r: Ending<ExperimentCoordinator>)
      ensures kind.Unlisted? ==> r == Threw(ScenarioUnavailable)
      ensures !kind.Unlisted? ==> r.Returned? && fresh(r.value) && r.value.agent == agent
      ensures !kind.Unlisted? ==> r.value.config == policy.coordinator && r.value.scenario.agent == agent
    {
      if kind.Unlisted? { return Threw(ScenarioUnavailable); }
      var coordinator := new ExperimentCoordinator(agent, policy.coordinator);
      return Returned(coordinator);
    }

    method RunCoordinator(id: Id) returns (r: Ending<State>)
      requires agent.Focused(id)
      modifies agent
      ensures agent.Focused(id) && agent.Others(id) == old(agent.Others(id))
      ensures Ended(r, agent.JobOf(id)) == Launch(old(agent.JobOf(id)), policy.coordinator)
    {
      hide Agent.Focused, Agent.Others, Agent.JobOf, CoordinatorSpec.RunOnce;
      var row := agent.Get(id);
      var coordinator :- CoordinatorFor(row.kind);
      r := coordinator.RunOnce(id);
    }

    /******* Reconciliation *******/

    method ReconcileOne(id: Id) returns (r: Ending<seq<State>>)
      requires agent.Focused(id)
      modifies agent
      ensures agent.Focused(id) && agent.Others(id) == old(agent.Others(id))
      ensures Ended(r, agent.JobOf(id)) == ReconcileRow(old(agent.JobOf(id)), policy.coordinator)
    {
      hide Agent.Focused, Agent.Others, Agent.JobOf, Launch, Transit, Commit;
      var row := agent.Get(id);
      var state := row.state;
      if state == Injecting {
        var _ :- agent.Transition(id, CleaningUp, RestartUncertainInjection, policy.coordinator.actor, row.revision);
        var _ :- agent.CommitRow(id);
        state := CleaningUp;
      }
      if state !in {Expired, CancellationRequested, CleaningUp, CleanupFailed} { return Returned([]); }
      var result :- RunCoordinator(id);
      return Returned([result]);
    }

    method ReconcileAt(id: Id) returns (r: Ending<seq<State>>)
      requires Ready() && id in agent.paths
      modifies agent
      ensures Ended(r, View()) == Lift(old(View()), id, ReconcileRow(JobFor(old(View()), id), policy.coordinator))
      ensures agent.paths.Keys == old(agent.paths).Keys
      ensures agent.Valid() && (!r.Killed? ==> Ready())
    {
      hide WorldValid, ReconcileRow;
      ghost var s := View();
      ReconcileLifts(s, id, policy);
      agent.CleanFocused(id);
      hide Agent.Clean, Agent.Focused, Agent.JobOf, Agent.Valid, Lift, Ended, Merge;
      r := ReconcileOne(id);
      agent.FocusedKnown(id);
      LiftEnded(s, id, r, agent.JobOf(id));
      MergedRest(s, id, View(), agent.JobOf(id));
      if !r.Killed? { agent.FocusedClean(id); }
    }

    // Interrupted work is brought to cleanup; an injection is never resumed.
    method Reconcile() returns (r: Ending<seq<State>>)
      requires Ready()
      modifies agent
      ensures Ended(r, View()) == ReconcileAll(old(View()), ActiveIds(old(View()).world, old(agent.listing)), policy.coordinator)
      ensures agent.Valid() && (!r.Killed? ==> Ready())
    {
      hide ActiveIds, WorldValid, ReconcileAll;
      ghost var s := View();
      var active := agent.ListActive(s.world);
      r := ReconcileRows(active);
    }

    method ReconcileRows(active: seq<Id>) returns (r: Ending<seq<State>>)
      requires Ready() && agent.Valid() && forall id <- active :: id in agent.paths
      modifies agent
      ensures Ended(r, View()) == ReconcileAll(old(View()), active, policy.coordinator)
      ensures agent.Valid() && (!r.Killed? ==> Ready())
    {
      hide WorldValid, ReconcileAll, ReconcileRow, Prefixed, Lift, JobFor, Agent.Clean, Agent.Valid;
      ghost var s := View();
      var results: seq<State> := [];
      var i := 0;
      ghost var left := active;
      PrefixedNothing(ReconcileAll(s, active, policy.coordinator));
      while i < |active|
        invariant Ready() && agent.Valid() && i <= |active| && left == active[i..]
        invariant agent.paths.Keys == s.world.paths.Keys && forall id <- left :: id in agent.paths
        invariant ReconcileAll(s, active, policy.coordinator) ==
                  Prefixed(results, ReconcileAll(View(), left, policy.coordinator))
      {
        assert left[0] == active[i] && left[0] in agent.paths;
        ReconcileStep(View(), left, results, policy.coordinator);
        var more :- ReconcileAt(active[i]);
        results := results + more;
        left, i := left[1..], i + 1;
      }
      assert left == [];
      ReconcileNothing(View(), results, policy.coordinator);
      return Returned(results);
    }

    /******* Control requests *******/

    method Cancel(id: Id, requester: string) returns (r: Ending<()>)
      requires agent.Focused(id)
      modifies agent
      ensures agent.Focused(id) && agent.Others(id) == old(agent.Others(id))
      ensures Ended(r, agent.JobOf(id)) == CancelRow(old(agent.JobOf(id)), requester)
    {
      hide Agent.Focused, Agent.Others, Agent.JobOf, Transit, Commit;
      var row := agent.Get(id);
      var state := row.state;
      if state !in {Passed, Failed, Cancelled, OperatorAttention} {
        if state == Planned {
          var _ :- agent.Transition(id, Cancelled, AbortRequested, requester, row.revision);
        } else if state in {Active, State.Preflight} {
          var _ :- agent.Transition(id, CancellationRequested, AbortRequested, requester, row.revision);
        }
        var _ :- agent.CommitRow(id);
      }
      return Returned(());
    }

    method CancelAt(id: Id, requester: string) returns (r: Ending<()>)
      requires Ready() && id in agent.paths
      modifies agent
      ensures Ended(r, View()) == Lift(old(View()), id, CancelRow(JobFor(old(View()), id), requester))
      ensures agent.Valid() && (!r.Killed? ==> Ready())
    {
      hide WorldValid, CancelRow;
      ghost var s := View();
      CancelLifts(s, id, requester, policy);
      agent.CleanFocused(id);
      hide Agent.Clean, Agent.Focused, Agent.JobOf, Agent.Valid, Lift, Ended, Merge;
      r := Cancel(id, requester);
      agent.FocusedKnown(id);
      LiftEnded(s, id, r, agent.JobOf(id));
      MergedRest(s, id, View(), agent.JobOf(id));
      if !r.Killed? { agent.FocusedClean(id); }
    }

    method Complete(k: nat) returns (r: Ending<()>)
      requires Ready() && k < |agent.requests|
      modifies agent
      ensures Ended(r, View()) == CompleteRequest(old(View()), k)
      ensures agent.Valid() && (!r.Killed? ==> Ready())
    {
      hide ValidPath;
      agent.CompleteControlRequest(k);
      r := agent.Commit();
      assert r.Returned? ==> agent.paths == old(agent.paths);
    }

    method Serve(k: nat) returns (r: Ending<()>)
      requires Ready() && k < |agent.requests| && agent.requests[k].pending
      modifies agent
      ensures Ended(r, View()) == DrainOne(old(View()), k)
      ensures agent.Valid() && (!r.Killed? ==> Ready())
    {
      hide WorldValid, CancelRow, CompleteRequest;
      var request := agent.requests[k];
      if request.id in agent.pending && request.cancel { var _ :- CancelAt(request.id, request.requester); }
      r := Complete(k);
    }

    // The requests that were pending when the tick began, oldest first.
    method Drain() returns (r: Ending<()>)
      requires Ready()
      modifies agent
      ensures Ended(r, View()) == DrainFrom(old(View()), 0)
      ensures agent.Valid() && (!r.Killed? ==> Ready())
    {
      hide WorldValid, DrainOne;
      ghost var s := View();
      var found := agent.PendingControlRequests();
      ghost var next := 0;
      for i := 0 to |found|
        invariant Ready() && |agent.requests| == |s.world.requests| && next <= |agent.requests|
        invariant next == if i == 0 then 0 else found[i - 1] + 1
        invariant forall k :: next <= k < |agent.requests| ==> agent.requests[k] == s.world.requests[k]
        invariant DrainFrom(s, 0) == DrainFrom(View(), next)
      {
        var k := found[i];
        SkipSettled(View(), next, k);
        DrainOneTouches(View(), k);
        var _ :- Serve(k);
        next := k + 1;
      }
      SkipSettled(View(), next, |agent.requests|);
      return Returned(());
    }

    /******* Claim, renew, run, release *******/

    // `job` is the experiment before it was claimed at `now`.
    method RunClaim(id: Id, ghost job: Job, ghost now: int) returns (r: Ending<seq<State>>)
      requires agent.Focused(id)
      requires agent.JobOf(id) == job.(live := ClaimRow(job.live, instance, now, policy.leaseSeconds))
      modifies agent
      ensures agent.Focused(id) && agent.Others(id) == old(agent.Others(id))
      ensures Ended(r, agent.JobOf(id)) == RunClaimed(job, instance, now, policy)
    {
      hide Agent.Focused, Agent.Others, Agent.JobOf, Commit, Launch, RenewRow, ReleaseRow, ClaimRow;
      var _ :- agent.CommitRow(id);
      var again := agent.Now(id);
      var renewed := agent.RenewLease(id, instance, again, policy.leaseSeconds);
      if !renewed {
        NotRenewed(ReadClock(Machine.Commit(job.(live := ClaimRow(job.live, instance, now, policy.leaseSeconds))).state).1.live,
                   instance, again, policy.leaseSeconds);
        agent.RollbackRow(id);
        return Returned([]);
      }
      var _ :- agent.CommitRow(id);
      var result := RunCoordinator(id);
      if result.Killed? { return Killed(result.place); }
      var _ := agent.ReleaseLease(id, instance);
      var _ :- agent.CommitRow(id);
      if result.Threw? { return Threw(result.error); }
      return Returned([result.value]);
    }

    static lemma NotRenewed(row: Row, instance: Instance, now: int, seconds: int)
      ensures row.owner != Some(instance) ==> RenewRow(row, instance, now, seconds) == row
    {
    }

    method Claim() returns (r: Ending<seq<State>>)
      requires Ready()
      modifies agent
      ensures Ended(r, View()) == ClaimAndRun(old(View()), policy)
      ensures agent.Valid() && (!r.Killed? ==> Ready())
    {
      hide WorldValid, RunClaimed, FirstCandidate;
      var now := agent.Clock();
      ghost var s := View();
      assert (now, s) == ReadSysClock(old(View()));
      var claimed := agent.ClaimNext(instance, now, policy.leaseSeconds, s.world);
      if claimed.None? { return Returned([]); }
      var id := claimed.value;
      ClaimLifts(s, id, instance, now, policy);
      hide Agent.Clean, Agent.Focused, Agent.JobOf, Agent.Valid, Lift, Ended, Merge;
      r := RunClaim(id, JobFor(s, id), now);
      agent.FocusedKnown(id);
      LiftEnded(s, id, r, agent.JobOf(id));
      MergedRest(s, id, View(), agent.JobOf(id));
      if !r.Killed? { agent.FocusedClean(id); }
    }

    lemma FlagIrrelevant(w: World, flag: bool)
      requires WorldValid(w, policy)
      ensures WorldValid(w.(reconciled := flag), policy)
    {
    }

    // One tick: reconcile once after a start, drain the control requests, then run one claim.
    method RunOnce() returns (r: Ending<seq<State>>)
      requires Ready()
      modifies this`reconciled, agent
      ensures Ended(r, View()) == Tick(old(View()), policy)
      ensures agent.Valid() && (!r.Killed? ==> Ready())
    {
      hide WorldValid, ReconcileAll, ActiveIds, DrainFrom, ClaimAndRun, Agent.Clean, Agent.Valid;
      var results: seq<State> := [];
      if !reconciled {
        results :- Reconcile();
        FlagIrrelevant(View().world, true);
        reconciled := true;
      }
      var _ :- Drain();
      var ran :- Claim();
      return Returned(results + ran);
    }
  }
}
