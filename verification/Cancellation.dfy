/** Whether a cancelled experiment can still end as passed. */
module Cancellation {
  import opened Wrappers
  import opened Lifecycle
  import opened Rows
  import opened Machine
  import opened Evidence
  import opened Protocol
  import opened Invariants
  import opened CoordinatorSpec
  import opened CoordinatorFollows
  import opened CleanupFollows
  import opened Aspects
  import opened Safety
  import opened SupervisorSpec
  import opened SupervisorFollows
  import Scenarios

  // A cancellation was requested, cleanup has begun, and the mark that remembers the request is
  // not durable yet. The coordinator is in this condition between two adjacent commits.
  ghost predicate Unmarked(c: Cell) {
    c.row.state == CleaningUp && Mentions(c.row.audit, CancellationRequested) && c.row.outcome != Some(CancelledPending)
  }

  // The very next thing that became durable after such a condition was the mark.
  ghost predicate Attributed(p: Path) {
    p.Then? ==>
      Attributed(p.before) && (Unmarked(p.before.cell) ==> p.cell.row.outcome == Some(CancelledPending))
  }

  ghost predicate CancelInv(c: Cell) {
    Mentions(c.row.audit, CancellationRequested) ==>
      || c.row.state in {CancellationRequested, Cancelled, OperatorAttention}
      || Unmarked(c)
      || (c.row.state in {CleaningUp, CleanupFailed, Verifying} && c.row.outcome == Some(CancelledPending))
  }

  lemma MentionKept(r: Row, r': Row)
    requires Follows(r, r')
    ensures Mentions(r'.audit, CancellationRequested) <==>
            Mentions(r.audit, CancellationRequested) || (r.state != r'.state && r'.state == CancellationRequested)
  {
    CountFollows(r, r', CancellationRequested);
    OccurrencesOnRoute(r.state, r'.state, CancellationRequested);
  }

  lemma CancelKept(c: Cell, c': Cell, limit: nat)
    requires CancelInv(c) && Step(c, c', limit)
    requires Unmarked(c) ==> c'.row.outcome == Some(CancelledPending)
    ensures CancelInv(c')
  {
    if c'.row != c.row {
      MentionKept(c.row, c'.row);
      hide Follows;
    }
  }

  lemma {:induction false} AttributedInv(p: Path, limit: nat)
    requires ValidPath(p, limit) && Attributed(p)
    ensures CancelInv(p.cell)
  {
    match p
    case Born(c) => assert c.row.audit[..0] == []; assert Count(c.row.audit, CancellationRequested) == 0;
    case Then(q, c) => AttributedInv(q, limit); CancelKept(q.cell, c, limit);
  }

  // Unless a process died in that gap, an experiment whose cancellation was requested never ends
  // as passed, however many cleanup retries and restarts lie in between.
  lemma CancelledNeverPasses(p: Path, limit: nat)
    requires ValidPath(p, limit) && Attributed(p) && Mentions(p.cell.row.audit, CancellationRequested)
    ensures p.cell.row.state != Passed
  {
    AttributedInv(p, limit);
  }

  /******* The other direction, under any crash *******/

  ghost predicate CancelledInv(c: Cell) {
    && (c.row.state == Planned ==> |c.row.audit| == 1)
    && (c.row.state == Cancelled ==> Mentions(c.row.audit, CancellationRequested) || |c.row.audit| == 2)
  }

  // cancelled means the log holds a cancellation request, or is exactly planned then cancelled.
  lemma {:induction false} CancelledWasAsked(p: Path, limit: nat)
    requires ValidPath(p, limit)
    ensures CancelledInv(p.cell)
    ensures p.cell.row.state == Cancelled && |p.cell.row.audit| == 2 ==>
              p.cell.row.audit[0].to == Planned && p.cell.row.audit[1].to == Cancelled
  {
    PathSound(p, limit);
    if p.Then? {
      CancelledWasAsked(p.before, limit);
      PathSound(p.before, limit);
      if p.cell.row != p.before.cell.row { CancelledStep(p.before.cell, p.cell, limit); }
    }
  }

  lemma CancelledStep(c: Cell, c': Cell, limit: nat)
    requires CancelledInv(c) && Sound(c) && c.row != c'.row && Step(c, c', limit)
    ensures CancelledInv(c')
  {
    MentionKept(c.row, c'.row);
    if c.row.state == c'.row.state { assert |c'.row.audit| == |c.row.audit|; }
  }

  /******* When the gap is left open *******/

  lemma MarkedStep(c: Cell, c': Cell, limit: nat)
    requires Step(c, c', limit) && (c.row.outcome == Some(CancelledPending) || Terminal(c.row.state))
    ensures c'.row.outcome == Some(CancelledPending) || Terminal(c'.row.state)
  {
    hide Follows, EventAllowed, ContextAllowed, AttemptsAllowed, ObservationsAllowed;
  }

  // Once the mark is durable, every continuation is attributed.
  lemma {:induction false} MarkedStaysAttributed(p: Path, q: Path, limit: nat)
    requires ValidPath(q, limit) && Extends(p, q) && Attributed(p) && p.cell.row.outcome == Some(CancelledPending)
    ensures Attributed(q) && !Unmarked(q.cell)
    ensures q.cell.row.outcome == Some(CancelledPending) || Terminal(q.cell.row.state)
  {
    hide Step, Mentions;
    if p != q {
      MarkedStaysAttributed(p, q.before, limit);
      MarkedStep(q.before.cell, q.cell, limit);
    }
  }

  // Nothing to attribute while the log never mentions a cancellation.
  lemma {:induction false} UnmentionedStaysAttributed(p: Path, q: Path, limit: nat)
    requires ValidPath(q, limit) && Extends(p, q) && Attributed(p) && !Mentions(q.cell.row.audit, CancellationRequested)
    ensures Attributed(q) && !Unmarked(q.cell) && !Mentions(p.cell.row.audit, CancellationRequested)
  {
    if p != q {
      if q.before.cell.row != q.cell.row { MentionKept(q.before.cell.row, q.cell.row); }
      hide Follows;
      UnmentionedStaysAttributed(p, q.before, limit);
    }
  }

  /******* Which passes leave it open *******/

  // A pass over a row that is not in the gap leaves it there only by dying at a commit: the one
  // between the move to cleaning_up and the mark.
  lemma PassAttributes(j: Job, cfg: Config)
    requires At(j, j.live.state, cfg, j.path) && Claimable(j.live.state)
    requires Attributed(j.path) && !Unmarked(j.path.cell)
    ensures var r := RunOnce(j, cfg);
            Attributed(r.state.path) && (Unmarked(r.state.path.cell) ==> r.Died? && r.place == AtCommit)
  {
    hide CommitAllowed;
    RunOnceOn(j, cfg, j.path);
    var r := RunOnce(j, cfg);
    if j.live.outcome == Some(CancelledPending) {
      MarkedStaysAttributed(j.path, r.state.path, cfg.Limit());
    } else if !Mentions(j.live.audit, CancellationRequested) {
      RunOnceKept(j, cfg, NeverAsked);
      UnmentionedStaysAttributed(j.path, r.state.path, cfg.Limit());
    } else {
      AttributedInv(j.path, cfg.Limit());
      assert j.live.state == CancellationRequested;
      CancelledPassAttributes(j, cfg);
    }
  }

  lemma CancelledPassAttributes(j: Job, cfg: Config)
    requires At(j, CancellationRequested, cfg, j.path) && Attributed(j.path)
    ensures var r := RunOnce(j, cfg);
            Attributed(r.state.path) && (Unmarked(r.state.path.cell) ==> r.Died? && r.place == AtCommit)
  {
    hide CommitAllowed;
    var entered := Note(j, Entered);
    NoteOn(j, Entered, cfg, j.path);
    assert Attributed(entered.path);
    StepOn(entered, CleaningUp, CleanupRequired, cfg.actor, cfg, j.path);
    var moved := TransitAndCommit(entered, CleaningUp, CleanupRequired, cfg.actor);
    assert RunOnce(j, cfg) == Retire(entered, cfg);
    if moved.Done? {
      assert moved.state.path == Then(entered.path, Cell(moved.state.live, entered.Log()));
      CancelledMentions(entered, moved.state, cfg, j.path);
      MarkOn(moved.state, true, cfg, j.path);
      var marked := MarkCancelled(moved.state, true);
      if marked.Done? {
        assert marked.state.path.cell.row.outcome == Some(CancelledPending);
        assert Attributed(marked.state.path);
        CleanupMarkedOn(marked.state, true, cfg, marked.state.path);
        MarkedStaysAttributed(marked.state.path, CleanupMarked(marked.state, true, cfg).state.path, cfg.Limit());
      }
    }
  }

  // And when it was left there the request is forgotten: a pass whose two control calls report
  // the effect gone ends as passed.
  lemma LeftOpenPasses(j: Job, cfg: Config, first: Reading, second: Reading)
    requires At(j, CleaningUp, cfg, j.path) && Unmarked(j.path.cell) && Owned(j.live.kind, j.live.context)
    requires j.env.control == [Reply(first), Reply(second)] && j.env.life >= 8
    requires EffectGone(j.live.kind, first) && EffectGone(j.live.kind, second)
    ensures var r := RunOnce(j, cfg); r.Done? && r.value == Passed && Mentions(r.state.live.audit, CancellationRequested)
  {
    hide CommitAllowed, ValidPath, Extends, AttemptCleanup, Conclude;
    var entered := Note(j, Entered);
    NoteOn(j, Entered, cfg, j.path);
    assert RunOnce(j, cfg) == CleanupMarked(entered, false, cfg);
    AttemptOn(entered, cfg, j.path);
    AttemptSucceeds(entered, first);
    var tried := AttemptCleanup(entered);
    ConcludeOn(tried.state, false, cfg, j.path);
    ConcludePasses(tried.state, cfg, second);
    PathKeepsMention(j.path, Conclude(tried.state, false, cfg).state.path, cfg.Limit());
  }

  lemma AttemptSucceeds(j: Job, reading: Reading)
    requires Owned(j.live.kind, j.live.context) && j.env.life >= 3
    requires j.env.control != [] && j.env.control[0] == Reply(reading) && EffectGone(j.live.kind, reading)
    ensures var r := AttemptCleanup(j);
            r.Done? && r.value.1 && r.state.env.control == j.env.control[1..] && r.state.env.life == j.env.life - 3
  {
    var cleaned := Scenarios.Cleanup(ReadClock(j).1);
    assert cleaned.Done? && cleaned.value;
  }

  lemma VerifySucceeds(j: Job, reading: Reading)
    requires Owned(j.live.kind, j.live.context) && j.env.life >= 2
    requires j.env.control == [Reply(reading)] && EffectGone(j.live.kind, reading)
    ensures var r := Scenarios.VerifyCleanup(j);
            r.Done? && r.value && r.state.env.life == j.env.life - 2 && r.state.live == j.live
  {
  }

  lemma ConcludePasses(j: Job, cfg: Config, reading: Reading)
    requires j.live.state == CleaningUp && Owned(j.live.kind, j.live.context)
    requires j.env.control == [Reply(reading)] && EffectGone(j.live.kind, reading) && j.env.life >= 5
    ensures var r := Conclude(j, false, cfg); r.Done? && r.value == Passed
  {
    hide Scenarios.VerifyCleanup, Owned, EffectGone, NextSequence;
    var k := Transit(j, Verifying, CleanupSucceeded, cfg.actor).state;
    VerifySucceeds(k, reading);
    var noted := Note(Scenarios.VerifyCleanup(k).state, VerifyAnswered(true));
    var seen := Observe(noted, Phase.After, cfg);
    assert seen.Done? && seen.state.live.state == Verifying && seen.state.env.life >= 1;
  }

  lemma {:induction false} PathKeepsMention(p: Path, q: Path, limit: nat)
    requires ValidPath(q, limit) && Extends(p, q) && Mentions(p.cell.row.audit, CancellationRequested)
    ensures Mentions(q.cell.row.audit, CancellationRequested)
  {
    if p != q {
      PathKeepsMention(p, q.before, limit);
      if q.before.cell.row != q.cell.row { MentionKept(q.before.cell.row, q.cell.row); }
    }
  }

  /******* Whole runs *******/

  ghost predicate Remembered(p: Path) { Attributed(p) && !Unmarked(p.cell) }

  ghost predicate LostAtCommit<T>(r: JobResult<T>) { r.Died? && r.place == AtCommit }

  lemma LaunchRemembers(j: Job, cfg: Config)
    requires At(j, j.live.state, cfg, j.path) && Claimable(j.live.state) && Remembered(j.path)
    ensures var r := Launch(j, cfg); LostAtCommit(r) || Remembered(r.state.path)
  {
    hide CommitAllowed, ValidPath, Extends, Unmarked, RunOnce;
    if !j.live.kind.Unlisted? { PassAttributes(j, cfg); }
  }

  lemma ReconcileRowRemembers(j: Job, cfg: Config)
    requires At(j, j.live.state, cfg, j.path) && Remembered(j.path)
    ensures var r := ReconcileRow(j, cfg); LostAtCommit(r) || Remembered(r.state.path)
  {
    hide CommitAllowed, ValidPath, Extends;
    if j.live.state == Injecting {
      AttributedInv(j.path, cfg.Limit());
      StepOn(j, CleaningUp, RestartUncertainInjection, cfg.actor, cfg, j.path);
      if !Mentions(j.live.audit, CancellationRequested) {
        StepKept(j, CleaningUp, RestartUncertainInjection, cfg.actor, NeverAsked);
      }
    }
    var moved := if j.live.state == Injecting then TransitAndCommit(j, CleaningUp, RestartUncertainInjection, cfg.actor)
                 else Done(j.live.state, j);
    assert Remembered(moved.state.path);
    if moved.Done? && NeedsCleanup(moved.value) {
      ReflexiveAt(moved.state, cfg, j.path);
      hide Remembered, Launch, TransitAndCommit;
      LaunchRemembers(moved.state, cfg);
    }
  }

  lemma ReflexiveAt(j: Job, cfg: Config, base: Path)
    requires At(j, j.live.state, cfg, base)
    ensures At(j, j.live.state, cfg, j.path)
  {
    hide ValidPath;
  }

  lemma CancelRowRemembers(j: Job, requester: string, cfg: Config)
    requires At(j, j.live.state, cfg, j.path) && Remembered(j.path)
    ensures Remembered(CancelRow(j, requester).state.path)
  {
    hide Mentions;
  }

  lemma LeaseRemembers(j: Job, k: Job)
    requires Remembered(j.path) && k.path == j.path
    requires j.Clean() || k.live.state != CleaningUp
    requires k.live == j.live.(owner := k.live.owner, leaseUntil := k.live.leaseUntil)
    ensures Remembered(Commit(k).state.path)
  {
    hide Mentions;
  }

  lemma RunClaimedRemembers(j: Job, instance: Instance, now: int, p: Policy)
    requires At(j, j.live.state, p.coordinator, j.path) && Claimable(j.live.state) && Remembered(j.path)
    ensures var r := RunClaimed(j, instance, now, p); LostAtCommit(r) || Remembered(r.state.path)
  {
    hide CommitAllowed, ValidPath, Extends, Remembered, Launch;
    var cfg := p.coordinator;
    var claiming := j.(live := ClaimRow(j.live, instance, now, p.leaseSeconds));
    LeaseOn(j, claiming, cfg, j.path);
    LeaseRemembers(j, claiming);
    var claimed := Commit(claiming);
    if claimed.Done? {
      var clock := ReadClock(claimed.state);
      var renewing := clock.1.(live := RenewRow(clock.1.live, instance, clock.0, p.leaseSeconds));
      LeaseOn(clock.1, renewing, cfg, j.path);
      LeaseRemembers(clock.1, renewing);
      var renewed := Commit(renewing);
      if renewed.Done? {
        ReflexiveAt(renewed.state, cfg, j.path);
        LaunchRemembers(renewed.state, cfg);
        LaunchLeaves(renewed.state, cfg);
        var launched := Launch(renewed.state, cfg);
        if !launched.Died? {
          LeaseRemembers(launched.state, launched.state.(live := ReleaseRow(launched.state.live, instance)));
        }
      }
    }
  }

  lemma LaunchLeaves(j: Job, cfg: Config)
    requires At(j, j.live.state, cfg, j.path) && Claimable(j.live.state)
    ensures var r := Launch(j, cfg); !r.Died? ==> r.state.Clean() || r.state.live.state == State.Preflight
  {
    hide CommitAllowed, ValidPath, Extends, RunOnce;
    if !j.live.kind.Unlisted? { RunOnceOn(j, cfg, j.path); }
  }

  ghost predicate AllRemembered(w: World) { forall id :: id in w.paths ==> Remembered(w.paths[id]) }

  ghost predicate TickLostAtCommit<T>(r: SysResult<T>) { r.Died? && r.place == AtCommit }

  lemma {:induction false} ReconcileAllRemembers(s: Sys, ids: seq<Id>, p: Policy)
    requires WorldValid(s.world, p) && AllRemembered(s.world) && forall id <- ids :: id in s.world.paths
    ensures var r := ReconcileAll(s, ids, p.coordinator); TickLostAtCommit(r) || AllRemembered(r.state.world)
    decreases |ids|
  {
    hide CommitAllowed, ValidPath, ReconcileRow, Remembered;
    if ids != [] {
      JobAt(s, ids[0], p);
      ReconcileRowOn(JobFor(s, ids[0]), p.coordinator, s.world.paths[ids[0]]);
      ReconcileRowRemembers(JobFor(s, ids[0]), p.coordinator);
      var r := ReconcileRow(JobFor(s, ids[0]), p.coordinator);
      LiftValid(s, ids[0], r, p);
      var lifted := Lift(s, ids[0], r);
      if lifted.Done? { ReconcileAllRemembers(lifted.state, ids[1..], p); }
    }
  }

  lemma {:induction false} DrainRemembers(s: Sys, k: nat, p: Policy)
    requires WorldValid(s.world, p) && AllRemembered(s.world) && k <= |s.world.requests|
    ensures AllRemembered(DrainFrom(s, k).state.world)
    decreases |s.world.requests| - k
  {
    hide CommitAllowed, ValidPath, CancelRow, Remembered;
    if k < |s.world.requests| {
      var request := s.world.requests[k];
      DrainOneValid(s, k, p);
      if request.pending && request.cancel && request.id in s.world.paths {
        JobAt(s, request.id, p);
        CancelRowRemembers(JobFor(s, request.id), request.requester, p.coordinator);
      }
      var one := DrainOne(s, k);
      assert AllRemembered(one.state.world);
      if one.Done? { DrainRemembers(one.state, k + 1, p); }
    }
  }

  lemma ClaimRemembers(s: Sys, p: Policy)
    requires WorldValid(s.world, p) && AllRemembered(s.world)
    ensures var r := ClaimAndRun(s, p); TickLostAtCommit(r) || AllRemembered(r.state.world)
  {
    hide CommitAllowed, ValidPath, RunClaimed, Remembered;
    var (now, s) := ReadSysClock(s);
    var found := FirstCandidate(s.world, s.world.listing, now);
    if found.Some? {
      JobAt(s, found.value, p);
      RunClaimedRemembers(JobFor(s, found.value), s.world.instance, now, p);
    }
  }

  lemma TickRemembers(s: Sys, p: Policy)
    requires WorldValid(s.world, p) && AllRemembered(s.world)
    ensures var r := Tick(s, p); TickLostAtCommit(r) || AllRemembered(r.state.world)
  {
    hide CommitAllowed, ValidPath, ReconcileAll, DrainFrom, ClaimAndRun, Remembered;
    ReconcileAllValid(s, ActiveIds(s.world, s.world.listing), p);
    ReconcileAllRemembers(s, ActiveIds(s.world, s.world.listing), p);
    var reconciled := Reconcile(s, p.coordinator);
    if reconciled.Done? {
      DrainFromValid(reconciled.state, 0, p);
      DrainRemembers(reconciled.state, 0, p);
      var drained := DrainFrom(reconciled.state, 0);
      if drained.Done? { ClaimRemembers(drained.state, p); }
    }
  }

  // No process of the run died at a commit; it may have died at any port call.
  ghost predicate DiesOnlyAtPorts(ops: seq<Op>, p: Policy) {
    ops != [] ==>
      && DiesOnlyAtPorts(ops[..|ops| - 1], p)
      && (ops[|ops| - 1].TickWith? ==> !TickLostAtCommit(Tick(Sys(Run(ops[..|ops| - 1], p), ops[|ops| - 1].env), p)))
  }

  lemma {:induction false} RunRemembers(ops: seq<Op>, p: Policy)
    requires DiesOnlyAtPorts(ops, p)
    ensures AllRemembered(Run(ops, p))
  {
    hide CommitAllowed, ValidPath, Tick;
    if ops != [] {
      var earlier, op := ops[..|ops| - 1], ops[|ops| - 1];
      RunRemembers(earlier, p);
      EveryRunFollows(earlier, p);
      if op.TickWith? { TickRemembers(Sys(Run(earlier, p), op.env), p); }
    }
  }

  // When processes die only at port calls, an experiment whose cancellation was requested never
  // ends as passed.
  lemma CancelledNeverPassesInRun(ops: seq<Op>, p: Policy, id: Id)
    requires DiesOnlyAtPorts(ops, p) && id in Run(ops, p).paths
    ensures var row := Run(ops, p).Row(id); Mentions(row.audit, CancellationRequested) ==> row.state != Passed
  {
    RunRemembers(ops, p);
    EveryRunFollows(ops, p);
    if Mentions(Run(ops, p).Row(id).audit, CancellationRequested) {
      CancelledNeverPasses(Run(ops, p).paths[id], p.coordinator.Limit());
    }
  }
}
