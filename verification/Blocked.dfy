/** Which rows a restart can get past, and what becomes of everything listed behind one it cannot. */
module Blocked {
  import opened Wrappers
  import opened Lifecycle
  import opened Rows
  import opened Machine
  import opened Evidence
  import opened Protocol
  import opened Invariants
  import opened Safety
  import opened CoordinatorSpec
  import opened CoordinatorFollows
  import opened CleanupFollows
  import opened Convergence
  import opened Passable
  import opened SupervisorSpec
  import opened SupervisorFollows
  import opened Runs

  // A row the restart takes into cleanup, whose scenario is not in the catalog, or whose effect it
  // cannot prove to own with at most one attempt left.
  predicate Obstructs(r: Row, limit: nat) {
    && (NeedsCleanup(r.state) || r.state == Injecting)
    && (r.kind.Unlisted? || (!Owned(r.kind, r.context) && LastAttempt(r, limit)))
  }

  /******* An effect that is not owned stays so *******/

  lemma UnownedStep(c: Cell, c': Cell, limit: nat)
    requires Step(c, c', limit) && OwnershipInv(c) && NeedsCleanup(c.row.state) && !Owned(c.row.kind, c.row.context)
    ensures NeedsCleanup(c'.row.state) && !Owned(c'.row.kind, c'.row.context)
    ensures |c'.row.attempts| >= |c.row.attempts|
  {
    hide Follows, OutcomeAllowed, ObservationsAllowed, RestoresProven;
  }

  lemma {:induction false} UnownedStays(p: Path, q: Path, limit: nat)
    requires ValidPath(q, limit) && limit >= 1 && Extends(p, q)
    requires NeedsCleanup(p.cell.row.state) && !Owned(p.cell.row.kind, p.cell.row.context)
    ensures NeedsCleanup(q.cell.row.state) && !Owned(q.cell.row.kind, q.cell.row.context)
    ensures |q.cell.row.attempts| >= |p.cell.row.attempts|
  {
    if p != q {
      UnownedStays(p, q.before, limit);
      PathSafe(q.before, limit);
      UnownedStep(q.before.cell, q.cell, limit);
    }
  }

  /******* One row *******/

  lemma UnownedPass(j: Job, cfg: Config, base: Path)
    requires At(j, j.live.state, cfg, base) && NeedsCleanup(j.live.state) && !Owned(j.live.kind, j.live.context)
    requires LastAttempt(j.live, cfg.Limit())
    ensures var r := RunOnce(j, cfg); !r.Done? && Obstructs(r.state.Saved(), cfg.Limit())
  {
    hide CommitAllowed, ValidPath, Extends, Retire, Owned;
    Reflexive(j, cfg, base);
    RunOnceOn(j, cfg, j.path);
    var r := RunOnce(j, cfg);
    UnownedStays(j.path, r.state.path, cfg.Limit());
    var entered := Note(j, Entered);
    NoteOn(j, Entered, cfg, base);
    Reflexive(entered, cfg, base);
    RetireProgress(entered, cfg);
  }

  // Whatever is answered, and wherever the process dies: the reconciliation does not return, and
  // the row obstructs the next one too.
  lemma ObstructedRow(j: Job, cfg: Config)
    requires At(j, j.live.state, cfg, j.path) && Obstructs(j.live, cfg.Limit())
    ensures var r := ReconcileRow(j, cfg); !r.Done? && Obstructs(r.state.Saved(), cfg.Limit())
  {
    hide CommitAllowed, ValidPath, Extends, RunOnce, Owned;
    if j.live.state == Injecting {
      StepOn(j, CleaningUp, RestartUncertainInjection, cfg.actor, cfg, j.path);
      var moved := TransitAndCommit(j, CleaningUp, RestartUncertainInjection, cfg.actor);
      if moved.Done? && !j.live.kind.Unlisted? { UnownedPass(moved.state, cfg, j.path); }
    } else if !j.live.kind.Unlisted? {
      UnownedPass(j, cfg, j.path);
    }
  }

  // What is not owned before a reconciliation is not owned after it, and not over.
  lemma UnownedRow(j: Job, cfg: Config)
    requires At(j, j.live.state, cfg, j.path) && !j.live.kind.Unlisted? && !Owned(j.live.kind, j.live.context)
    requires NeedsCleanup(j.live.state) || j.live.state == Injecting
    ensures var row := ReconcileRow(j, cfg).state.Saved();
            !Owned(row.kind, row.context) && (NeedsCleanup(row.state) || row.state == Injecting)
  {
    hide CommitAllowed, ValidPath, Extends, RunOnce, Owned;
    if j.live.state == Injecting {
      StepOn(j, CleaningUp, RestartUncertainInjection, cfg.actor, cfg, j.path);
      var moved := TransitAndCommit(j, CleaningUp, RestartUncertainInjection, cfg.actor);
      if moved.Done? {
        Reflexive(moved.state, cfg, j.path);
        RunOnceOn(moved.state, cfg, moved.state.path);
        UnownedStays(moved.state.path, RunOnce(moved.state, cfg).state.path, cfg.Limit());
      }
    } else {
      RunOnceOn(j, cfg, j.path);
      UnownedStays(j.path, RunOnce(j, cfg).state.path, cfg.Limit());
    }
  }

  // Answers and a life that are enough for the reconciliation of this row, with `rest` left over.
  function RowEnough(r: Row, rest: Env, cfg: Config): Env {
    if r.state == Injecting then
      var e := Enough(r.(state := CleaningUp), rest, cfg);
      e.(life := e.life + 1)
    else if NeedsCleanup(r.state) then Enough(r, rest, cfg)
    else rest
  }

  lemma RowPaid(path: Path, rest: Env, cfg: Config)
    requires ValidPath(path, cfg.Limit()) && !Obstructs(path.cell.row, cfg.Limit()) && Tranquil(rest)
    ensures var r := ReconcileRow(Job(path, path.cell.row, RowEnough(path.cell.row, rest, cfg)), cfg);
            r.Done? && r.state.env == rest
  {
    hide CommitAllowed, ValidPath, Extends, RunOnce, Owned, Gone;
    var row := path.cell.row;
    var j := Job(path, row, RowEnough(row, rest, cfg));
    JobOnPath(path, j.env, cfg);
    if row.state == Injecting {
      StepOn(j, CleaningUp, RestartUncertainInjection, cfg.actor, cfg, path);
      var moved := TransitAndCommit(j, CleaningUp, RestartUncertainInjection, cfg.actor).state;
      assert moved == Job(moved.path, moved.path.cell.row, Enough(moved.path.cell.row, rest, cfg));
      PassPaid(moved.path, rest, cfg, path);
    } else if NeedsCleanup(row.state) {
      assert j == Job(path, row, Enough(row, rest, cfg));
      PassPaid(path, rest, cfg, path);
    }
  }

  // The exact condition, read from the row before the restart.
  lemma ObstructsExactly(path: Path, cfg: Config)
    requires ValidPath(path, cfg.Limit())
    ensures (exists env :: ReconcileRow(Job(path, path.cell.row, env), cfg).Done?) <==> !Obstructs(path.cell.row, cfg.Limit())
  {
    hide CommitAllowed, ValidPath, ReconcileRow, Obstructs, RowEnough;
    if Obstructs(path.cell.row, cfg.Limit()) {
      forall env ensures !ReconcileRow(Job(path, path.cell.row, env), cfg).Done? {
        JobOnPath(path, env, cfg);
        ObstructedRow(Job(path, path.cell.row, env), cfg);
      }
    } else {
      RowPaid(path, NOTHING, cfg);
      assert ReconcileRow(Job(path, path.cell.row, RowEnough(path.cell.row, NOTHING, cfg)), cfg).Done?;
    }
  }

  /******* The restart of the whole database *******/

  ghost function Provision(w: World, ids: seq<Id>, cfg: Config): (env: Env)
    requires forall id <- ids :: id in w.paths
    ensures Tranquil(env)
  {
    if ids == [] then NOTHING else RowEnough(w.Row(ids[0]), Provision(w, ids[1..], cfg), cfg)
  }

  // `w0` is the world before, of which the rows still to come are unchanged in `w`.
  lemma {:induction false} AllPaid(w: World, w0: World, ids: seq<Id>, p: Policy)
    requires WorldValid(w, p) && Once(ids)
    requires forall id <- ids :: id in w.paths && id in w0.paths && w.paths[id] == w0.paths[id]
    requires forall id <- ids :: !Obstructs(w.Row(id), p.coordinator.Limit())
    ensures ReconcileAll(Sys(w, Provision(w0, ids, p.coordinator)), ids, p.coordinator).Done?
    decreases |ids|
  {
    hide CommitAllowed, ValidPath, ReconcileRow, Obstructs, RowEnough;
    if ids != [] {
      var cfg, id := p.coordinator, ids[0];
      var rest := Provision(w0, ids[1..], cfg);
      var s := Sys(w, Provision(w0, ids, cfg));
      assert forall other <- ids[1..] :: other in ids;
      RowPaid(w.paths[id], rest, cfg);
      JobAt(s, id, p);
      ReconcileRowOn(JobFor(s, id), cfg, w.paths[id]);
      var r := ReconcileRow(JobFor(s, id), cfg);
      LiftValid(s, id, r, p);
      var w1 := Merge(s, id, r.state).world;
      forall other | other in ids[1..] ensures other != id {
        var m :| 0 <= m < |ids[1..]| && ids[1..][m] == other;
        assert ids[m + 1] == other;
      }
      assert Once(ids[1..]);
      AllPaid(w1, w0, ids[1..], p);
    }
  }

  // Nothing behind it has been touched.
  ghost predicate YoungerUntouched(w: World, w': World, bad: Id)
    requires bad in w.paths
  {
    forall id :: id in w.paths && id != bad && Older(w, bad, id) ==> id in w'.paths && w'.paths[id] == w.paths[id]
  }

  lemma ActiveSorted(w: World, ids: seq<Id>)
    requires (forall id <- ids :: id in w.paths) && SortedIds(w, ids) && Once(ids)
    ensures SortedIds(w, ActiveIds(w, ids)) && Once(ActiveIds(w, ids))
  {
    if ids != [] {
      assert SortedIds(w, ids[1..]) && Once(ids[1..]);
      ActiveSorted(w, ids[1..]);
      var rest := ActiveIds(w, ids[1..]);
      forall k | 0 <= k < |rest| ensures Older(w, ids[0], rest[k]) && rest[k] != ids[0] {
        assert rest[k] in rest && rest[k] in ids[1..];
        var m :| 0 <= m < |ids[1..]| && ids[1..][m] == rest[k];
        assert ids[m + 1] == rest[k];
      }
    }
  }

  lemma OlderThanTheRest(w: World, ids: seq<Id>, id: Id)
    requires ids != [] && (forall i <- ids :: i in w.paths) && SortedIds(w, ids) && Once(ids) && id in ids[1..]
    ensures Older(w, ids[0], id) && ids[0] != id && !Older(w, id, ids[0])
  {
    var m :| 0 <= m < |ids[1..]| && ids[1..][m] == id;
    assert ids[m + 1] == id;
  }

  lemma {:induction false} ReconcileStops(s: Sys, ids: seq<Id>, bad: Id, p: Policy)
    requires WorldValid(s.world, p) && (forall id <- ids :: id in s.world.paths) && SortedIds(s.world, ids) && Once(ids)
    requires bad in ids && Obstructs(s.world.Row(bad), p.coordinator.Limit())
    ensures var r := ReconcileAll(s, ids, p.coordinator);
            && !r.Done? && bad in r.state.world.paths && YoungerUntouched(s.world, r.state.world, bad)
            && Obstructs(r.state.world.Row(bad), p.coordinator.Limit())
    decreases |ids|
  {
    hide CommitAllowed, ValidPath, ReconcileRow, Obstructs, SortedIds, Once;
    var cfg, id := p.coordinator, ids[0];
    JobAt(s, id, p);
    ReconcileRowOn(JobFor(s, id), cfg, s.world.paths[id]);
    var r := ReconcileRow(JobFor(s, id), cfg);
    LiftValid(s, id, r, p);
    var lifted := Lift(s, id, r);
    if id == bad {
      ObstructedRow(JobFor(s, id), cfg);
    } else {
      assert bad in ids[1..];
      OlderThanTheRest(s.world, ids, bad);
      if lifted.Done? {
        TailInOrder(s.world, ids);
        SortedKept(s.world, lifted.state.world, p, ids[1..]);
        ReconcileStops(lifted.state, ids[1..], bad, p);
      }
    }
  }

  lemma TailInOrder(w: World, ids: seq<Id>)
    requires ids != [] && (forall id <- ids :: id in w.paths) && SortedIds(w, ids) && Once(ids)
    ensures SortedIds(w, ids[1..]) && Once(ids[1..])
  {
  }

  // Some answers let the restart through exactly when no experiment obstructs it.
  lemma RestartExactly(w: World, p: Policy)
    requires WorldValid(w, p) && InOrder(w) && !w.reconciled
    ensures (exists env :: Reconcile(Sys(w, env), p.coordinator).Done?) <==>
            forall id :: id in w.paths ==> !Obstructs(w.Row(id), p.coordinator.Limit())
  {
    hide CommitAllowed, ValidPath, ReconcileAll, ActiveIds, SortedIds, Once;
    var cfg := p.coordinator;
    var active := ActiveIds(w, w.listing);
    ActiveSorted(w, w.listing);
    if bad :| bad in w.paths && Obstructs(w.Row(bad), cfg.Limit()) {
      forall env ensures !Reconcile(Sys(w, env), cfg).Done? { ReconcileStops(Sys(w, env), active, bad, p); }
    } else {
      AllPaid(w, w, active, p);
      assert Reconcile(Sys(w, Provision(w, active, cfg)), cfg).Done?;
    }
  }

  /******* Every tick after it *******/

  // After a restart, with a row in the way.
  ghost predicate BlockedBy(w: World, bad: Id, limit: nat) {
    !w.reconciled && InOrder(w) && bad in w.paths && Obstructs(w.Row(bad), limit)
  }

  // Then no tick completes, whatever is answered: no cancellation is taken up, nothing is claimed,
  // and nothing behind the row is touched.
  lemma TickBlocked(s: Sys, p: Policy, bad: Id)
    requires WorldValid(s.world, p) && BlockedBy(s.world, bad, p.coordinator.Limit())
    ensures var r := Tick(s, p);
            && !r.Done? && YoungerUntouched(s.world, r.state.world, bad) && r.state.world.requests == s.world.requests
            && BlockedBy(r.state.world, bad, p.coordinator.Limit())
  {
    hide CommitAllowed, ValidPath, ReconcileAll, ActiveIds, Obstructs, SortedIds, Once;
    var active := ActiveIds(s.world, s.world.listing);
    ActiveSorted(s.world, s.world.listing);
    TerminalDoesNotObstruct(s.world.Row(bad), p.coordinator.Limit());
    ReconcileStops(s, active, bad, p);
    TickValid(s, p);
    SortedKept(s.world, Tick(s, p).state.world, p, s.world.listing);
  }

  lemma TerminalDoesNotObstruct(r: Row, limit: nat)
    ensures Obstructs(r, limit) ==> !Terminal(r.state)
  {
  }

  // What has become of everything behind the row: as it was, or as it was scheduled since.
  ghost predicate Stalled(w: World, w': World, bad: Id)
    requires bad in w.paths
  {
    && bad in w'.paths
    && forall id :: id in w'.paths && id != bad && Older(w', bad, id) ==>
         if id in w.paths then w'.paths[id] == w.paths[id] else w'.paths[id].Born?
  }

  lemma BlockedStep(w: World, op: Op, p: Policy, bad: Id)
    requires WorldValid(w, p) && BlockedBy(w, bad, p.coordinator.Limit())
    ensures var w' := Apply(w, op, p);
            && WorldValid(w', p) && WorldExtends(w, w') && BlockedBy(w', bad, p.coordinator.Limit()) && Stalled(w, w', bad)
            && w.requests <= w'.requests
  {
    hide CommitAllowed, ValidPath, Tick, Obstructs, InOrder, Insert, TargetFree;
    ApplyValid(w, op, p);
    ApplyKeepsOrder(w, op, p);
    OrderOfOld(w, Apply(w, op, p), p);
    if op.TickWith? {
      TickBlocked(Sys(w, op.env), p, bad);
      ApplyKeepsKeys(w, op, p);
    }
  }

  lemma OrderOfOld(w: World, w': World, p: Policy)
    requires WorldValid(w', p) && WorldExtends(w, w')
    ensures forall a, b :: a in w.paths && b in w.paths ==> (Older(w, a, b) <==> Older(w', a, b))
  {
    SortedKept(w, w', p, []);
  }

  lemma StalledTwice(w: World, w1: World, w2: World, p: Policy, bad: Id)
    requires WorldValid(w1, p) && WorldValid(w2, p) && WorldExtends(w, w1) && WorldExtends(w1, w2) && bad in w.paths
    requires Stalled(w, w1, bad) && Stalled(w1, w2, bad)
    ensures Stalled(w, w2, bad)
  {
    hide ValidPath, Extends;
    OrderOfOld(w1, w2, p);
  }

  // Whatever is scheduled, asked, answered or restarted from then on: everything listed behind the
  // row stays exactly where it was, and what is scheduled behind it never starts. An experiment
  // past its deadline is not cleaned up any more.
  lemma {:induction false} BlockedForever(w: World, ops: seq<Op>, p: Policy, bad: Id)
    requires WorldValid(w, p) && BlockedBy(w, bad, p.coordinator.Limit())
    ensures var w' := ApplyEach(w, ops, p);
            && WorldValid(w', p) && WorldExtends(w, w') && BlockedBy(w', bad, p.coordinator.Limit()) && Stalled(w, w', bad)
            && w.requests <= w'.requests
  {
    hide CommitAllowed, ValidPath, Apply, Obstructs, InOrder;
    if ops == [] {
      SelfExtends(w);
    } else {
      var earlier, op := ops[..|ops| - 1], ops[|ops| - 1];
      BlockedForever(w, earlier, p, bad);
      var w1 := ApplyEach(w, earlier, p);
      BlockedStep(w1, op, p, bad);
      WorldExtendsTransitive(w, w1, Apply(w1, op, p));
      StalledTwice(w, w1, Apply(w1, op, p), p, bad);
    }
  }

  lemma SelfExtends(w: World)
    ensures WorldExtends(w, w)
  {
  }
}
