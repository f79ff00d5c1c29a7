/** The deployed system step by step: experiments are scheduled and cancelled, a supervisor ticks,
    and a process that dies is replaced by a new one on the same database. */
module Deployment {
  import opened Wrappers
  import opened Rows
  import opened Machine
  import opened Protocol
  import opened SupervisorSpec
  import opened SupervisorFollows
  import opened Process
  import opened Supervision

  const NO_ANSWERS := Env([], [], [], 0, [], 0)

  class System {
    const policy: Policy
    var agent: Agent
    var supervisor: Supervisor

    ghost predicate Valid()
      reads this, agent, supervisor
    {
      supervisor.agent == agent && supervisor.policy == policy && supervisor.Ready()
    }

    ghost function Current(): World
      reads this, agent, supervisor
      requires supervisor.agent == agent
    {
      supervisor.View().world
    }

    constructor (policy: Policy)
      ensures Valid() && fresh(agent) && fresh(supervisor) && this.policy == policy
      ensures Current() == EMPTY
    {
      this.policy := policy;
      var first := new Agent(map[], [], [], NO_ANSWERS, map[]);
      this.agent := first;
      this.supervisor := new Supervisor(first, policy, 0);
    }

    // A new process finds what was committed, and nothing that was only pending.
    method Reboot()
      requires supervisor.agent == agent && supervisor.policy == policy && agent.Valid()
      requires WorldValid(Current(), policy)
      modifies this
      ensures Valid() && fresh(agent) && fresh(supervisor)
      ensures Current() == old(Current()).(reconciled := false, instance := old(Current()).instance + 1)
    {
      hide ValidPath;
      var reopened := new Agent(agent.committed, agent.listing, agent.requests, agent.env, agent.paths);
      supervisor := new Supervisor(reopened, policy, supervisor.instance + 1);
      agent := reopened;
    }

    // The runtime swallows an exception that leaves the tick and goes on with the same process.
    method TickOnce(env: Env)
      requires Valid()
      modifies this, agent, supervisor
      ensures Valid() && (agent == old(agent) || fresh(agent)) && (supervisor == old(supervisor) || fresh(supervisor))
      ensures Current() == Apply(old(Current()), TickWith(env), policy)
    {
      hide ValidPath, CommitAllowed, Tick;
      TickValid(Sys(Current(), env), policy);
      agent.env := env;
      var r := supervisor.RunOnce();
      if r.Killed? { Reboot(); }
    }

    method Perform(op: Op)
      requires Valid()
      modifies this, agent, supervisor
      ensures Valid() && (agent == old(agent) || fresh(agent)) && (supervisor == old(supervisor) || fresh(supervisor))
      ensures Current() == Apply(old(Current()), op, policy)
    {
      hide ValidPath, CommitAllowed, Tick;
      ApplyValid(Current(), op, policy);
      match op {
        case Schedule(id, kind, parameters, target, now, duration, actor) =>
          var _ := agent.Schedule(id, kind, parameters, target, now, duration, actor, Current());
        case Ask(id, cancel, requester, key) =>
          var _ := agent.RequestControl(id, cancel, requester, key, Current());
        case TickWith(env) => TickOnce(env);
        case Restart => Reboot();
      }
    }
  }

  // Running the program step by step gives exactly the world the specification describes, so
  // every theorem about runs is a theorem about it.
  method Execute(ops: seq<Op>, policy: Policy) returns (system: System)
    ensures fresh(system) && system.Valid() && system.Current() == Run(ops, policy)
  {
    hide ValidPath, Apply;
    system := new System(policy);
    for i := 0 to |ops|
      invariant fresh(system) && fresh(system.agent) && fresh(system.supervisor) && system.policy == policy
      invariant system.Valid() && system.Current() == Run(ops[..i], policy)
    {
      assert ops[..i + 1][..i] == ops[..i];
      system.Perform(ops[i]);
    }
    assert ops[..|ops|] == ops;
  }
}
