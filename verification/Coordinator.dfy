/** The scenario operations and the coordinator, as they change the session step by step. */
module Coordinator {
  import opened Wrappers
  import opened Lifecycle
  import opened Rows
  import opened Machine
  import opened Evidence
  import opened Process
  import opened CoordinatorSpec
  import Spec = CoordinatorSpec
  import Scenarios

  class Scenario {
    const agent: Agent

    constructor (agent: Agent)
      ensures this.agent == agent
    {
      this.agent := agent;
    }

    method Preflight(id: Id) returns (r: Ending<bool>)
      requires agent.Focused(id)
      modifies agent
      ensures agent.Focused(id) && agent.Others(id) == old(agent.Others(id))
      ensures Ended(r, agent.JobOf(id)) == Scenarios.Preflight(old(agent.JobOf(id)))
    {
      hide Agent.Focused, Agent.Others, Agent.JobOf, BaselineOk;
      var row := agent.Get(id);
      var result :- agent.CallControl(id);
      var ok := Baseline(row.kind, row.parameters, result);
      agent.Note(id, Probed(ok));
      return Returned(ok);
    }

    // The parameters model of each scenario.
    static method Accepts(kind: Kind, p: Parameters) returns (ok: bool)
      ensures ok == ParametersAccepted(kind, p)
    {
      match kind
      case CpuPressure =>
        if !(1 <= p.duration <= 900) { return false; }
        if !(1 <= p.first <= 8) { return false; }
        return 10 <= p.second <= 80;
      case ApacheStop =>
        return 1 <= p.duration <= 3600;
      case DiskPressure =>
        if !(1 <= p.duration <= 900) { return false; }
        if !(1 <= p.first <= 4096) { return false; }
        return !(!(1 <= p.second <= 64) || p.second > p.first);
      case _ =>
        return true;
    }

    static method Baseline(kind: Kind, parameters: Parameters, result: Reading) returns (ok: bool)
      ensures ok == BaselineOk(kind, parameters, result)
    {
      match kind
      case CpuPressure =>
        if result.active || !result.owned { return false; }
        return result.cpus >= 2;
      case ApacheStop =>
        if !result.installed { return false; }
        return result.active;
      case DiskPressure =>
        var needed := parameters.first * 1024 * 1024;
        return result.storageOwned && !result.owned && !(result.freeBytes - needed < result.reserveBytes);
      case _ =>
        return result.ok;
    }

    method Inject(id: Id) returns (r: Ending<set<Proof>>)
      requires agent.Focused(id)
      modifies agent
      ensures agent.Focused(id) && agent.Others(id) == old(agent.Others(id))
      ensures Ended(r, agent.JobOf(id)) == Scenarios.Inject(old(agent.JobOf(id)))
    {
      hide Agent.Focused, Agent.Others, Agent.JobOf, InjectionProved, InjectionContext;
      var _ :- agent.Wait(id);
      agent.Note(id, InjectCalled);
      var row := agent.Get(id);
      var result :- agent.CallControl(id);
      var context :- Proven(row.kind, result);
      agent.Note(id, InjectProved(result));
      return Returned(context);
    }

    // The cleanup context of an effect the answer proves, or an exception.
    static method Proven(kind: Kind, result: Reading) returns (r: Ending<set<Proof>>)
      ensures r == if InjectionProved(kind, result) then Returned(InjectionContext(kind)) else Threw(InjectionUnverified)
    {
      match kind
      case CpuPressure =>
        if !result.active || !result.owned { return Threw(InjectionUnverified); }
        return Returned({WorkloadOwned});
      case ApacheStop =>
        if result.active || !result.changed { return Threw(InjectionUnverified); }
        return Returned({ApacheStopConfirmed});
      case DiskPressure =>
        if !result.owned || !result.active { return Threw(InjectionUnverified); }
        return Returned({ArtifactOwned});
      case _ =>
        if !result.ok { return Threw(InjectionUnverified); }
        return Returned({});
    }

    method VerifyActive(id: Id) returns (r: Ending<bool>)
      requires agent.Focused(id)
      modifies agent
      ensures agent.Focused(id) && agent.Others(id) == old(agent.Others(id))
      ensures Ended(r, agent.JobOf(id)) == Scenarios.VerifyActive(old(agent.JobOf(id)))
    {
      hide Agent.Focused, Agent.Others, Agent.JobOf;
      var row := agent.Get(id);
      var result :- agent.CallControl(id);
      match row.kind
      case CpuPressure => return Returned(result.active && result.owned);
      case ApacheStop => return Returned(!result.active);
      case DiskPressure => return Returned(result.owned);
      case _ => return Returned(result.ok);
    }

    // Stop the load, start the service, remove the artifact.
    method Restore(id: Id) returns (r: Ending<bool>)
      requires agent.Focused(id)
      modifies agent
      ensures agent.Focused(id) && agent.Others(id) == old(agent.Others(id))
      ensures Ended(r, agent.JobOf(id)) == Scenarios.Restore(old(agent.JobOf(id)))
    {
      hide Agent.Focused, Agent.Others, Agent.JobOf;
      var row := agent.Get(id);
      if !row.kind.Custom? && !row.kind.Unlisted? { agent.Note(id, Restored); }
      var result :- agent.CallControl(id);
      match row.kind
      case CpuPressure => return Returned(!result.active);
      case ApacheStop => return Returned(result.active);
      case DiskPressure => return Returned(!result.owned);
      case _ => return Returned(result.ok);
    }

    // Refused without the ownership entry of the scenario, and then nothing is called.
    method GatedRestore(id: Id) returns (r: Ending<bool>)
      requires agent.Focused(id)
      modifies agent
      ensures agent.Focused(id) && agent.Others(id) == old(agent.Others(id))
      ensures Ended(r, agent.JobOf(id)) == Scenarios.GatedRestore(old(agent.JobOf(id)))
    {
      hide Agent.Focused, Agent.Others, Agent.JobOf, Scenarios.Restore, Owned;
      var row := agent.Get(id);
      var owned := HoldsProof(row.kind, if row.context.Some? then row.context.value else {});
      assert owned == Owned(row.kind, row.context) by { ProofHeld(row.kind, row.context); }
      if !owned { return Returned(false); }
      r := Restore(id);
    }

    static method HoldsProof(kind: Kind, values: set<Proof>) returns (owned: bool)
      ensures owned == Owned(kind, Some(values))
    {
      match kind
      case CpuPressure => return WorkloadOwned in values;
      case ApacheStop => return ApacheStopConfirmed in values;
      case DiskPressure => return ArtifactOwned in values;
      case _ => return true;
    }

    // An absent context is an empty one.
    static lemma ProofHeld(kind: Kind, context: Option<set<Proof>>)
      ensures Owned(kind, context) == Owned(kind, Some(if context.Some? then context.value else {}))
    {
    }

    method Cleanup(id: Id) returns (r: Ending<bool>)
      requires agent.Focused(id)
      modifies agent
      ensures agent.Focused(id) && agent.Others(id) == old(agent.Others(id))
      ensures Ended(r, agent.JobOf(id)) == Scenarios.Cleanup(old(agent.JobOf(id)))
    {
      hide Agent.Focused, Agent.Others, Agent.JobOf, Scenarios.GatedRestore;
      var _ :- agent.Wait(id);
      agent.Note(id, CleanupCalled);
      r := GatedRestore(id);
    }

    // The CPU stop looks at no ownership; disk repeats its cleanup; Apache only looks.
    method VerifyCleanup(id: Id) returns (r: Ending<bool>)
      requires agent.Focused(id)
      modifies agent
      ensures agent.Focused(id) && agent.Others(id) == old(agent.Others(id))
      ensures Ended(r, agent.JobOf(id)) == Scenarios.VerifyCleanup(old(agent.JobOf(id)))
    {
      hide Agent.Focused, Agent.Others, Agent.JobOf, Scenarios.Restore, Scenarios.GatedRestore;
      var _ :- agent.Wait(id);
      agent.Note(id, VerifyCalled);
      var row := agent.Get(id);
      if row.kind.CpuPressure? {
        r := Restore(id);
      } else if row.kind.DiskPressure? {
        r := GatedRestore(id);
      } else {
        var result :- agent.CallControl(id);
        return Returned(if row.kind.ApacheStop? then result.active else result.ok);
      }
    }
  }

  // What a job ends as, without its value.
  function Forget<T>(r: JobResult<T>): JobResult<()> {
    if r.Done? then Done((), r.state) else r.PropagateFailure()
  }

  class ExperimentCoordinator {
    const agent: Agent
    const scenario: Scenario
    const config: Config

    ghost predicate Ready(id: Id)
      reads agent
    {
      scenario.agent == agent && agent.Focused(id)
    }

    constructor (agent: Agent, config: Config)
      ensures this.agent == agent && this.config == config && scenario.agent == agent
      ensures fresh(scenario)
    {
      this.agent, this.config := agent, config;
      this.scenario := new Scenario(agent);
    }

    // The transition asked for with the revision of the current row, made durable.
    method MoveTo(id: Id, target: State, reason: Reason) returns (r: Ending<State>)
      requires Ready(id)
      modifies agent
      ensures Ready(id) && agent.Others(id) == old(agent.Others(id))
      ensures Ended(r, agent.JobOf(id)) == TransitAndCommit(old(agent.JobOf(id)), target, reason, config.actor)
      ensures r.Returned? ==> agent.Clean()
    {
      hide Agent.Focused, Agent.Others, Agent.JobOf, Transit, Commit;
      var current := agent.Get(id);
      var _ :- agent.Transition(id, target, reason, config.actor, current.revision);
      var _ :- agent.CommitRow(id);
      return Returned(target);
    }

    // Whatever the observer answers is recorded and committed; without an observer nothing happens.
    method Observe(id: Id, phase: Phase) returns (r: Ending<()>)
      requires Ready(id)
      modifies agent
      ensures Ready(id) && agent.Others(id) == old(agent.Others(id))
      ensures Ended(r, agent.JobOf(id)) == Spec.Observe(old(agent.JobOf(id)), phase, config)
    {
      hide Agent.Focused, Agent.Others, Agent.JobOf, Commit, NextSequence;
      if !config.observed { return Returned(()); }
      var sequence := agent.NextObservationSequence(id, phase);
      var sight :- agent.ObserveSite(id);
      agent.RecordObservation(id, phase, sequence, sight);
      r := agent.CommitRow(id);
    }

    method Prepare(id: Id) returns (r: Ending<State>)
      requires Ready(id)
      modifies agent
      ensures Ready(id) && agent.Others(id) == old(agent.Others(id))
      ensures Ended(r, agent.JobOf(id)) == Spec.Prepare(old(agent.JobOf(id)), config)
    {
      hide Agent.Focused, Agent.Others, Agent.JobOf, Transit, TransitAndCommit, Scenarios.Preflight, AskGate, Spec.Observe,
           ParametersAccepted;
      var row := agent.Get(id);
      if row.state == Planned {
        var _ :- agent.Transition(id, State.Preflight, PreflightStarted, config.actor, row.revision);
      }
      row := agent.Get(id);
      var accepted := Scenario.Accepts(row.kind, row.parameters);
      if !accepted { return Threw(InvalidParameters); }
      if !row.kind.Custom? || row.kind.probes {
        var probed :- scenario.Preflight(id);
        if !probed {
          r := MoveTo(id, Failed, PreflightRefused);
          return;
        }
      }
      var passed :- agent.CheckTarget(id);
      if !passed {
        r := MoveTo(id, Failed, PreflightRefused);
        return;
      }
      var _ :- Observe(id, Before);
      r := MoveTo(id, Injecting, PreflightPassed);
    }

    method TryInject(id: Id) returns (r: Ending<State>)
      requires Ready(id)
      modifies agent
      ensures Ready(id) && agent.Others(id) == old(agent.Others(id))
      ensures Ended(r, agent.JobOf(id)) == Spec.TryInject(old(agent.JobOf(id)), config)
    {
      hide Agent.Focused, Agent.Others, Agent.JobOf, Commit, TransitAndCommit, Scenarios.Inject, Scenarios.VerifyActive,
           ParametersAccepted;
      var row := agent.Get(id);
      var accepted := Scenario.Accepts(row.kind, row.parameters);
      if !accepted { return Threw(InvalidParameters); }
      var context :- scenario.Inject(id);
      var current := agent.Get(id);
      agent.Put(id, current.(context := Some(context)));
      var _ :- agent.CommitRow(id);
      row := agent.Get(id);
      if !row.kind.Custom? || row.kind.confirms {
        var confirmed :- scenario.VerifyActive(id);
        if !confirmed { return Threw(EffectUnverified); }
      }
      r := MoveTo(id, Active, InjectionVerified);
    }

    // Whatever the attempt raises, the effect is uncertain and has to be cleaned up.
    method Inject(id: Id) returns (r: Ending<State>)
      requires Ready(id)
      modifies agent
      ensures Ready(id) && agent.Others(id) == old(agent.Others(id))
      ensures Ended(r, agent.JobOf(id)) == Spec.Inject(old(agent.JobOf(id)), config)
    {
      hide Agent.Focused, Agent.Others, Agent.JobOf, TransitAndCommit, Spec.TryInject;
      r := TryInject(id);
      if r.Threw? {
        var current := agent.Get(id);
        if current.state != Injecting { return Returned(CleaningUp); }
        r := MoveTo(id, CleaningUp, InjectionUncertain);
      }
    }

    // One cleanup call and its record: the number of the attempt and whether it succeeded.
    method AttemptCleanup(id: Id) returns (r: Ending<(nat, bool)>)
      requires Ready(id)
      modifies agent
      ensures Ready(id) && agent.Others(id) == old(agent.Others(id))
      ensures Ended(r, agent.JobOf(id)) == Spec.AttemptCleanup(old(agent.JobOf(id)))
    {
      hide Agent.Focused, Agent.Others, Agent.JobOf, Commit, ReadClock, Scenarios.Cleanup, RecordAttempt, NextAttempt;
      var number := agent.NextAttemptNumber(id);
      var started := agent.Now(id);
      var evidence := scenario.Cleanup(id);
      if evidence.Killed? { return Killed(evidence.place); }
      var ok := evidence.Returned? && evidence.value;
      agent.Note(id, CleanupAnswered(ok));
      var completed := agent.Now(id);
      var _ := agent.RecordAttempt(id, Attempt(number, ok, evidence.Returned?, started, completed));
      var _ :- agent.CommitRow(id);
      return Returned((number, ok));
    }

    method Conclude(id: Id, cancelled: bool) returns (r: Ending<State>)
      requires Ready(id)
      modifies agent
      ensures Ready(id) && agent.Others(id) == old(agent.Others(id))
      ensures Ended(r, agent.JobOf(id)) == Spec.Conclude(old(agent.JobOf(id)), cancelled, config)
    {
      hide Agent.Focused, Agent.Others, Agent.JobOf, Transit, TransitAndCommit, Scenarios.VerifyCleanup, Spec.Observe;
      var row := agent.Get(id);
      var _ :- agent.Transition(id, Verifying, CleanupSucceeded, config.actor, row.revision);
      var evidence := scenario.VerifyCleanup(id);
      if evidence.Killed? { return Killed(evidence.place); }
      var verified := evidence.Returned? && evidence.value;
      agent.Note(id, VerifyAnswered(verified));
      var _ :- Observe(id, Phase.After);
      var target := if cancelled && verified then Cancelled else if verified then Passed else OperatorAttention;
      row := agent.Get(id);
      row := row.(outcome := Some(Final(target)));
      if target == OperatorAttention { row := row.(attention := Some(VerificationFailed)); }
      agent.Put(id, row);
      r := MoveTo(id, target, VerificationEnded(verified));
    }

    method Cleanup(id: Id, cancelled: bool) returns (r: Ending<State>)
      requires Ready(id)
      modifies agent
      ensures Ready(id) && agent.Others(id) == old(agent.Others(id))
      ensures Ended(r, agent.JobOf(id)) == Spec.Cleanup(old(agent.JobOf(id)), cancelled, config)
    {
      hide Agent.Focused, Agent.Others, Agent.JobOf, Transit, Commit, TransitAndCommit, Spec.AttemptCleanup, Spec.Conclude;
      if cancelled {
        var row := agent.Get(id);
        agent.Put(id, row.(outcome := Some(CancelledPending)));
        var _ :- agent.CommitRow(id);
      }
      var tried :- AttemptCleanup(id);
      var (number, ok) := tried;
      if !ok {
        if number >= config.Limit() {
          var row := agent.Get(id);
          var _ :- agent.Transition(id, OperatorAttention, CleanupRefused, config.actor, row.revision);
          row := agent.Get(id);
          agent.Put(id, row.(attention := Some(AttemptsExhausted)));
          var _ :- agent.CommitRow(id);
          return Returned(OperatorAttention);
        }
        r := MoveTo(id, CleanupFailed, CleanupRefused);
        return;
      }
      r := Conclude(id, cancelled);
    }

    // An active row past its deadline expires; before it, it is observed once more.
    method Attend(id: Id) returns (r: Ending<()>)
      requires Ready(id)
      modifies agent
      ensures Ready(id) && agent.Others(id) == old(agent.Others(id))
      ensures Ended(r, agent.JobOf(id)) == Forget(Spec.Attend(old(agent.JobOf(id)), config))
    {
      hide Agent.Focused, Agent.Others, Agent.JobOf, TransitAndCommit, Spec.Observe;
      var row := agent.Get(id);
      if row.state == Active {
        var now := agent.Now(id);
        if now >= row.expiresAt {
          var _ :- MoveTo(id, Expired, DeadlineReached);
        } else {
          var _ :- Observe(id, During);
        }
      }
      return Returned(());
    }

    // A row whose effect has to go is moved to cleanup and cleaned up.
    method Retire(id: Id) returns (r: Ending<State>)
      requires Ready(id)
      modifies agent
      ensures Ready(id) && agent.Others(id) == old(agent.Others(id))
      ensures Ended(r, agent.JobOf(id)) == Spec.Retire(old(agent.JobOf(id)), config)
    {
      hide Agent.Focused, Agent.Others, Agent.JobOf, TransitAndCommit, Spec.Cleanup;
      var row := agent.Get(id);
      var state := row.state;
      if state in {Injecting, Expired, CancellationRequested, CleaningUp, CleanupFailed} {
        if state in {Injecting, Expired, CancellationRequested, CleanupFailed} {
          var _ :- MoveTo(id, CleaningUp, CleanupRequired);
        }
        row := agent.Get(id);
        state :- Cleanup(id, state == CancellationRequested || row.outcome == Some(CancelledPending));
      }
      return Returned(state);
    }

    method RunOnce(id: Id) returns (r: Ending<State>)
      requires Ready(id)
      modifies agent
      ensures Ready(id) && agent.Others(id) == old(agent.Others(id))
      ensures Ended(r, agent.JobOf(id)) == Spec.RunOnce(old(agent.JobOf(id)), config)
    {
      hide Agent.Focused, Agent.Others, Agent.JobOf, Spec.Prepare, Spec.Inject, Spec.Attend, Spec.Retire;
      agent.Note(id, Entered);
      var row := agent.Get(id);
      var state := row.state;
      if state in {Planned, State.Preflight} { state :- Prepare(id); }
      if state == Injecting { state :- Inject(id); }
      var _ :- Attend(id);
      r := Retire(id);
    }
  }
}
