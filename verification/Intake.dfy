/** What operators hand in: scheduled experiments and control requests, and what every run keeps of
    both. */
module Intake {
  import opened Wrappers
  import opened Lifecycle
  import opened Rows
  import opened Machine
  import opened Protocol
  import opened Invariants
  import opened CoordinatorSpec
  import opened Aspects
  import opened SupervisorSpec
  import opened SupervisorFollows
  import opened Lasting

  /******* Scheduling *******/

  // The row is the one this operation asked for.
  ghost predicate MadeBy(r: Row, op: Op) {
    && op.Schedule? && r.kind == op.kind && r.parameters == op.parameters && r.target == op.target
    && r.createdAt == op.now && r.expiresAt == op.now + op.duration
    && r.audit != [] && r.audit[0] == Transition(1, None, Planned, Scheduled, op.actor, 0)
  }

  // Nothing but what the operation asked for has happened to it.
  predicate Untouched(r: Row) {
    && r.state == Planned && r.revision == 0 && |r.audit| == 1 && r.owner.None? && r.leaseUntil == 0
    && r.context.None? && r.outcome.None? && r.attention.None? && r.attempts == [] && r.observations == []
  }

  // Accepted exactly if the duration is allowed, the id is new and nothing on the target is still
  // running; then one row is added, as asked for, and nothing else changes.
  lemma ScheduledExactly(w: World, op: Op)
    requires w.Indexed() && op.Schedule?
    ensures ScheduleIn(w, op).Some? <==>
              && 1 <= op.duration <= 3600 && op.id !in w.paths
              && forall id :: id in w.paths && w.Row(id).target == op.target ==>
                   w.Row(id).state in {Passed, Failed, Cancelled, OperatorAttention}
    ensures ScheduleIn(w, op).Some? ==>
              var w' := ScheduleIn(w, op).value;
              && w'.paths.Keys == w.paths.Keys + {op.id} && (forall id :: id in w.paths ==> w'.paths[id] == w.paths[id])
              && w'.requests == w.requests && w'.reconciled == w.reconciled && w'.instance == w.instance
              && MadeBy(w'.Row(op.id), op) && Untouched(w'.Row(op.id)) && w'.paths[op.id].cell.log == Silent
  {
    hide Insert;
  }

  lemma {:induction false} PathKeepsOrigin(p: Path, q: Path, limit: nat)
    requires ValidPath(q, limit) && Extends(p, q)
    ensures p.cell.row.audit != [] && q.cell.row.audit != [] && q.cell.row.audit[0] == p.cell.row.audit[0]
  {
    PathSound(q, limit);
    if p != q {
      PathKeepsOrigin(p, q.before, limit);
      StepKeepsOrigin(q.before.cell, q.cell, limit);
    }
  }

  lemma StepKeepsOrigin(c: Cell, c': Cell, limit: nat)
    requires Step(c, c', limit) && c.row.audit != [] && c'.row.audit != []
    ensures c'.row.audit[0] == c.row.audit[0]
  {
    hide Consistent, ContextAllowed, OutcomeAllowed, AttemptsAllowed, ObservationsAllowed, EventAllowed, MoveAllowed;
    if c'.row != c.row { assert c'.row.audit[..|c.row.audit|][0] == c'.row.audit[0]; }
  }

  lemma MadeByKept(p: Path, q: Path, op: Op, limit: nat)
    requires ValidPath(q, limit) && Extends(p, q) && MadeBy(p.cell.row, op)
    ensures MadeBy(q.cell.row, op)
  {
    PathKeepsIdentity(p, q, limit);
    PathKeepsOrigin(p, q, limit);
    hide ValidPath, Extends;
  }

  // In every run every experiment is as some schedule of its id asked for, and its log begins with
  // that request.
  lemma {:induction false} EveryRowAsScheduled(ops: seq<Op>, p: Policy, id: Id)
    requires id in Run(ops, p).paths
    ensures exists op :: op in ops && op.Schedule? && op.id == id && MadeBy(Run(ops, p).Row(id), op)
  {
    hide ValidPath, Apply, MadeBy;
    var n := |ops| - 1;
    var earlier, op := ops[..n], ops[n];
    var w := Run(earlier, p);
    EveryRunFollows(earlier, p);
    EveryRunFollows(ops, p);
    ApplyValid(w, op, p);
    if id in w.paths {
      EveryRowAsScheduled(earlier, p, id);
      var made :| made in earlier && made.Schedule? && made.id == id && MadeBy(w.Row(id), made);
      MadeByKept(w.paths[id], Run(ops, p).paths[id], made, p.coordinator.Limit());
      assert made in ops;
    } else {
      AddedBySchedule(w, op, p, id);
      assert op in ops;
    }
  }

  lemma AddedBySchedule(w: World, op: Op, p: Policy, id: Id)
    requires w.Indexed() && id !in w.paths && id in Apply(w, op, p).paths
    ensures op.Schedule? && op.id == id && MadeBy(Apply(w, op, p).Row(id), op)
  {
    hide Tick, ScheduleIn, MadeBy;
    if op.Schedule? { ScheduledExactly(w, op); }
  }

  /******* Control requests *******/

  // A request is queued exactly for a known experiment and a key never used; asking again with the
  // same key changes nothing.
  lemma AskedExactly(w: World, op: Op, again: Op)
    requires op.Ask? && again.Ask? && again.key == op.key
    ensures var w' := Asked(w, op);
            && (op.id in w.paths && (forall r <- w.requests :: r.key != op.key) ==>
                  w' == w.(requests := w.requests + [Request(op.id, op.cancel, op.requester, op.key, true)]))
            && (op.id !in w.paths || (exists r <- w.requests :: r.key == op.key) ==> w' == w)
            && (op.id in w.paths ==> Asked(w', again) == w')
  {
    if op.id in w.paths && forall r <- w.requests :: r.key != op.key {
      var w' := Asked(w, op);
      assert w'.requests[|w.requests|].key == again.key;
    }
  }

  // One request per key, each for an experiment there is, each as somebody asked.
  ghost predicate RequestsGood(w: World, ops: seq<Op>) {
    && (forall i, j :: 0 <= i < j < |w.requests| ==> w.requests[i].key != w.requests[j].key)
    && (forall r <- w.requests :: r.id in w.paths && AskedFor(r, ops))
  }

  ghost predicate AskedFor(r: Request, ops: seq<Op>) { Op.Ask(r.id, r.cancel, r.requester, r.key) in ops }

  // Requests are only ever answered.
  predicate Answered(was: seq<Request>, now: seq<Request>) {
    |now| == |was| && forall i :: 0 <= i < |was| ==> now[i] == was[i] || now[i] == was[i].(pending := false)
  }

  lemma {:induction false} DrainAnswers(s: Sys, k: nat)
    requires k <= |s.world.requests|
    ensures Answered(s.world.requests, DrainFrom(s, k).state.world.requests)
    decreases |s.world.requests| - k
  {
    hide CancelRow;
    if k < |s.world.requests| {
      var one := DrainOne(s, k);
      assert Answered(s.world.requests, one.state.world.requests);
      hide DrainOne;
      if one.Done? { DrainAnswers(one.state, k + 1); }
    }
  }

  lemma TickAnswers(s: Sys, p: Policy)
    requires s.world.Indexed()
    ensures Answered(s.world.requests, Tick(s, p).state.world.requests)
    ensures Tick(s, p).state.world.paths.Keys == s.world.paths.Keys
  {
    hide ReconcileAll, DrainFrom, ClaimAndRun, ActiveIds;
    var reconciled := Reconcile(s, p.coordinator);
    if reconciled.Done? { DrainAnswers(reconciled.state, 0); }
  }

  lemma AnsweredGood(w: World, w': World, ops: seq<Op>)
    requires RequestsGood(w, ops) && Answered(w.requests, w'.requests) && w.paths.Keys <= w'.paths.Keys
    ensures RequestsGood(w', ops)
  {
    forall r | r in w'.requests ensures r.id in w'.paths && AskedFor(r, ops) {
      var i :| 0 <= i < |w'.requests| && w'.requests[i] == r;
      assert w.requests[i] in w.requests;
    }
  }

  lemma {:induction false} EveryRequestKnown(ops: seq<Op>, p: Policy)
    ensures RequestsGood(Run(ops, p), ops)
  {
    hide Tick, ScheduleIn;
    if ops != [] {
      var earlier, op := ops[..|ops| - 1], ops[|ops| - 1];
      var w, w' := Run(earlier, p), Run(ops, p);
      EveryRequestKnown(earlier, p);
      assert RequestsGood(w, ops);
      match op
      case TickWith(env) => TickAnswers(Sys(w, env), p); AnsweredGood(w, w', ops);
      case Schedule(_, _, _, _, _, _, _) => if ScheduleIn(w, op).Some? { ScheduledExactly(w, op); }
      case Restart =>
      case Ask(_, _, _, _) => AskGood(w, op, ops);
    }
  }

  lemma AskGood(w: World, op: Op, ops: seq<Op>)
    requires op.Ask? && op in ops && RequestsGood(w, ops)
    ensures RequestsGood(Asked(w, op), ops)
  {
  }

  /******* Who signs *******/

  // Every move in the log of every experiment is signed by the coordinator's own actor, except the
  // first, which its scheduler signed, and the aborts, each signed by somebody who asked for one.
  lemma {:induction false} EveryEntrySigned(ops: seq<Op>, p: Policy, id: Id)
    requires id in Run(ops, p).paths
    ensures var w := Run(ops, p);
            forall entry <- w.Row(id).audit :: Signed(entry, p.coordinator.actor, Askers(w, id))
  {
    hide ValidPath, Apply;
    var n := |ops| - 1;
    var earlier, op := ops[..n], ops[n];
    var w, w' := Run(earlier, p), Run(ops, p);
    EveryRunFollows(earlier, p);
    if id in w.paths {
      EveryEntrySigned(earlier, p, id);
      SignedStep(w, op, p, id);
    } else {
      AddedBySchedule(w, op, p, id);
      AddedUntouched(w, op, p);
    }
  }

  lemma AddedUntouched(w: World, op: Op, p: Policy)
    requires w.Indexed() && op.Schedule? && op.id !in w.paths && op.id in Apply(w, op, p).paths
    ensures Untouched(Apply(w, op, p).Row(op.id))
  {
    hide ScheduleIn, MadeBy;
    ScheduledExactly(w, op);
  }

  lemma SignedStep(w: World, op: Op, p: Policy, id: Id)
    requires WorldValid(w, p) && id in w.paths
    requires forall entry <- w.Row(id).audit :: Signed(entry, p.coordinator.actor, Askers(w, id))
    ensures var w' := Apply(w, op, p);
            id in w'.paths && forall entry <- w'.Row(id).audit :: Signed(entry, p.coordinator.actor, Askers(w', id))
  {
    hide ValidPath, Tick, ScheduleIn;
    var w' := Apply(w, op, p);
    var before := Askers(w, id);
    match op {
      case TickWith(env) =>
        TickHolds(Sys(w, env), p, id, SignedBy(p.coordinator.actor, before));
        TickKeepsAskers(Sys(w, env), p, id);
      case Schedule(_, _, _, _, _, _, _) => if ScheduleIn(w, op).Some? { ScheduledExactly(w, op); }
      case Restart =>
      case Ask(_, _, _, _) => MoreAskers(w, op, id);
    }
    assert before <= Askers(w', id);
    forall entry <- w'.Row(id).audit ensures Signed(entry, p.coordinator.actor, Askers(w', id)) {
      assert Signed(entry, p.coordinator.actor, before);
    }
  }

  lemma MoreAskers(w: World, op: Op, id: Id)
    requires op.Ask?
    ensures Askers(w, id) <= Askers(Asked(w, op), id) && Asked(w, op).paths == w.paths
  {
  }

  lemma TickKeepsAskers(s: Sys, p: Policy, id: Id)
    requires s.world.Indexed()
    ensures Askers(s.world, id) <= Askers(Tick(s, p).state.world, id)
  {
    TickAnswers(s, p);
    var was, now := s.world.requests, Tick(s, p).state.world.requests;
    hide Tick;
    forall who | who in Askers(s.world, id) ensures who in Askers(Tick(s, p).state.world, id) {
      var i :| 0 <= i < |was| && was[i].id == id && was[i].cancel && was[i].requester == who;
      assert now[i] in now;
    }
  }
}
