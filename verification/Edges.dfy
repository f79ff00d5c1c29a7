/** Which edges of the lifecycle graph experiments ever take. */
module Edges {
  import opened Wrappers
  import opened Lifecycle
  import opened Rows
  import opened Machine
  import opened Protocol
  import opened Invariants
  import opened SupervisorSpec
  import opened SupervisorFollows
  import Safety

  predicate Taken(from: State, to: State) {
    match from
    case Planned => to in {Preflight, Cancelled}
    case Preflight => to in {Injecting, Failed}
    case Injecting => to in {Active, CleaningUp}
    case Active => to in {Expired, CancellationRequested}
    case Expired => to == CleaningUp
    case CancellationRequested => to == CleaningUp
    case CleaningUp => to in {Verifying, CleanupFailed}
    case CleanupFailed => to == CleaningUp
    case Verifying => to in {Passed, Cancelled, OperatorAttention}
    case _ => false
  }

  // Four edges of the graph are never taken, and no other pair of states is an edge.
  predicate Unused(from: State, to: State) {
    || (from == State.Preflight && to == Cancelled) || (from == Active && to == CleaningUp)
    || (from == CleanupFailed && to == OperatorAttention) || (from == Verifying && to == Failed)
  }

  lemma GraphSplits(from: State, to: State)
    ensures Allowed(from, to) <==> Taken(from, to) || Unused(from, to)
    ensures !(Taken(from, to) && Unused(from, to))
  {
  }

  ghost predicate OnlyTaken(audit: seq<Transition>) {
    forall i :: 1 <= i < |audit| ==> Taken(audit[i - 1].to, audit[i].to)
  }

  lemma RouteTaken(r: Row, to: State, log: Log, limit: nat)
    requires MoveAllowed(r, to, log, limit)
    ensures var route := Route(r.state, to);
            && (route != [] ==> Taken(r.state, route[0]))
            && (|route| > 1 ==> Taken(route[0], route[1])) && |route| <= 2
  {
  }

  lemma StepTakes(c: Cell, c': Cell, limit: nat)
    requires Step(c, c', limit) && Consistent(c.row) && OnlyTaken(c.row.audit)
    ensures OnlyTaken(c'.row.audit)
  {
    if c'.row != c.row {
      var n, route := |c.row.audit|, Route(c.row.state, c'.row.state);
      if c'.row.state != c.row.state { RouteTaken(c.row, c'.row.state, c.log, limit); }
      hide MoveAllowed, ContextAllowed, OutcomeAllowed, AttemptsAllowed, ObservationsAllowed, EventAllowed, Route, Taken, Justified;
      assert Route(c.row.state, c.row.state) == [] by { Safety.StayPut(c.row.state); }
      TailTaken(c.row, c'.row.audit, route);
    }
  }

  lemma TailTaken(r: Row, audit: seq<Transition>, route: seq<State>)
    requires Consistent(r) && OnlyTaken(r.audit) && |route| <= 2
    requires |audit| == |r.audit| + |route| && audit[..|r.audit|] == r.audit
    requires forall i :: 0 <= i < |route| ==> audit[|r.audit| + i].to == route[i]
    requires (route != [] ==> Taken(r.state, route[0])) && (|route| > 1 ==> Taken(route[0], route[1]))
    ensures OnlyTaken(audit)
  {
    var n := |r.audit|;
    forall i | 1 <= i < |audit| ensures Taken(audit[i - 1].to, audit[i].to) {
      assert forall k :: 0 <= k < n ==> audit[k] == r.audit[k];
      if i > n { assert audit[n].to == route[0] && audit[n + 1].to == route[1]; }
    }
  }

  lemma {:induction false} PathTakes(p: Path, limit: nat)
    requires ValidPath(p, limit)
    ensures OnlyTaken(p.cell.row.audit)
  {
    match p
    case Born(c) =>
    case Then(q, c) =>
      PathTakes(q, limit);
      PathSound(q, limit);
      StepTakes(q.cell, c, limit);
  }

  // In every run every experiment moves along those edges alone.
  lemma EveryRunTakes(ops: seq<Op>, p: Policy, id: Id)
    requires id in Run(ops, p).paths
    ensures OnlyTaken(Run(ops, p).Row(id).audit)
  {
    EveryRunFollows(ops, p);
    PathTakes(Run(ops, p).paths[id], p.coordinator.Limit());
    hide Run, ValidPath;
  }
}
