/** The safety properties, said of every run of the deployed system. */
module Runs {
  import opened Wrappers
  import opened Lifecycle
  import opened Rows
  import opened Machine
  import opened Evidence
  import opened Protocol
  import opened Invariants
  import opened SupervisorSpec
  import opened SupervisorFollows
  import opened Safety
  import Timeline

  // All of it together, for any experiment in any run.
  lemma EveryRunIsSafe(ops: seq<Op>, p: Policy, id: Id)
    requires id in Run(ops, p).paths
    ensures var c, limit := Run(ops, p).paths[id].cell, p.coordinator.Limit();
            && Calls(c.log, InjectCalled) <= 1 && InjectionsGated(c.row.kind, c.log)
            && RestoresProven(c.log) && ProofsShown(c.row.kind, c.log)
            && (Injected(c.log) && Terminal(c.row.state) ==>
                  c.row.state == OperatorAttention || (c.row.state in {Passed, Cancelled} && VerifiedSince(c.log)))
            && (c.row.state in {Active, Expired, CancellationRequested} ==> c.row.context.Some?)
            && WrittenAhead(Run(ops, p).paths[id])
            && (Lost(c) ==> c.row.state !in {Verifying, Passed, Cancelled})
            && Count(c.row.audit, CleanupFailed) <= limit - 1 && c.row.revision <= 2 * limit + 5
            && Replay(c.row.audit) == Some((c.row.state, c.row.revision))
            && Timeline.Ordered(c.row.observations)
  {
    var path, limit := Run(ops, p).paths[id], p.coordinator.Limit();
    EveryRunFollows(ops, p);
    AtMostOnceGatedInjection(path, limit);
    OnlyProvenEffectsUndone(path, path, limit);
    EveryProofShown(path, limit);
    if Injected(path.cell.log) && Terminal(path.cell.row.state) { NoFalseSuccess(path, limit); }
    if path.cell.row.state in {Active, Expired, CancellationRequested} { ActiveHasContext(path, limit); }
    HistoryWrittenAhead(path, limit);
    if Lost(path.cell) { LostNeverLooksClean(path, path, limit); }
    BoundedLifecycle(path, limit);
    AuditRefinesRow(path, limit);
    Timeline.ObservationTimeline(path, limit);
  }

  /******* One live experiment per target *******/

  ghost predicate OneLivePerTarget(w: World) {
    forall a, b :: a in w.paths && b in w.paths && a != b && w.Row(a).target == w.Row(b).target ==>
      Terminal(w.Row(a).state) || Terminal(w.Row(b).state)
  }

  lemma ExtendedKeepsLive(w: World, w': World, p: Policy)
    requires WorldValid(w', p) && WorldExtends(w, w') && w'.paths.Keys == w.paths.Keys && OneLivePerTarget(w)
    ensures OneLivePerTarget(w')
  {
    hide ValidPath;
    forall id | id in w.paths
      ensures w'.Row(id).target == w.Row(id).target && (Terminal(w.Row(id).state) ==> Terminal(w'.Row(id).state))
    {
      PathKeepsIdentity(w.paths[id], w'.paths[id], p.coordinator.Limit());
      if Terminal(w.Row(id).state) { TerminalIsFinal(w.paths[id], w'.paths[id], p.coordinator.Limit()); }
    }
  }

  lemma {:induction false} EveryRunOneLivePerTarget(ops: seq<Op>, p: Policy)
    ensures OneLivePerTarget(Run(ops, p))
  {
    hide ValidPath, Follows;
    if ops != [] {
      var w, op := Run(ops[..|ops| - 1], p), ops[|ops| - 1];
      EveryRunOneLivePerTarget(ops[..|ops| - 1], p);
      EveryRunFollows(ops[..|ops| - 1], p);
      ApplyValid(w, op, p);
      if !op.Schedule? {
        ApplyKeepsKeys(w, op, p);
        ExtendedKeepsLive(w, Apply(w, op, p), p);
      }
    }
  }

  lemma ApplyKeepsKeys(w: World, op: Op, p: Policy)
    requires w.Indexed() && !op.Schedule?
    ensures Apply(w, op, p).paths.Keys == w.paths.Keys
    ensures Apply(w, op, p).listing == w.listing
  {
    hide Tick;
  }

  /******* The oldest claimable experiment is claimed *******/

  ghost predicate Older(w: World, a: Id, b: Id)
    requires a in w.paths && b in w.paths
  {
    w.Row(a).createdAt < w.Row(b).createdAt || (w.Row(a).createdAt == w.Row(b).createdAt && a <= b)
  }

  ghost predicate SortedIds(w: World, ids: seq<Id>)
    requires forall id <- ids :: id in w.paths
  {
    forall i, j :: 0 <= i < j < |ids| ==> Older(w, ids[i], ids[j])
  }

  lemma {:induction false} InsertKeepsSorted(w: World, w': World, ids: seq<Id>, id: Id, created: int)
    requires forall i <- ids :: i in w.paths && i in w'.paths && w'.Row(i).createdAt == w.Row(i).createdAt
    requires SortedIds(w, ids) && id in w'.paths && w'.Row(id).createdAt == created
    ensures SortedIds(w', Insert(w, ids, id, created))
  {
    if ids != [] && !Precedes(w, id, created, ids[0]) {
      assert SortedIds(w, ids[1..]);
      InsertKeepsSorted(w, w', ids[1..], id, created);
      var rest := Insert(w, ids[1..], id, created);
      forall k | 0 <= k < |rest| ensures Older(w', ids[0], rest[k]) {
        assert rest[k] in rest;
        if rest[k] in ids[1..] { var m :| 0 <= m < |ids[1..]| && ids[1..][m] == rest[k]; assert ids[m + 1] == rest[k]; }
      }
    } else if ids != [] {
      forall k | 0 <= k < |ids| ensures Older(w', id, ids[k]) { assert ids[k] in ids; }
      forall i, j | 0 <= i < j < |ids| ensures Older(w', ids[i], ids[j]) { assert ids[i] in ids && ids[j] in ids; }
    }
  }

  // Every experiment listed once.
  ghost predicate Once(ids: seq<Id>) { forall i, j :: 0 <= i < j < |ids| ==> ids[i] != ids[j] }

  lemma {:induction false} InsertKeepsOnce(w: World, ids: seq<Id>, id: Id, created: int)
    requires (forall i <- ids :: i in w.paths) && Once(ids) && id !in ids
    ensures Once(Insert(w, ids, id, created))
  {
    if ids != [] && !Precedes(w, id, created, ids[0]) {
      InsertKeepsOnce(w, ids[1..], id, created);
      var rest := Insert(w, ids[1..], id, created);
      forall k | 0 <= k < |rest| ensures rest[k] != ids[0] {
        assert rest[k] in rest;
        if rest[k] in ids[1..] { var m :| 0 <= m < |ids[1..]| && ids[1..][m] == rest[k]; assert ids[m + 1] == rest[k]; }
      }
    }
  }

  ghost predicate InOrder(w: World) { w.Indexed() && SortedIds(w, w.listing) && Once(w.listing) }

  // Creation times never change, so neither does the order.
  lemma SortedKept(w: World, w': World, p: Policy, ids: seq<Id>)
    requires WorldValid(w', p) && WorldExtends(w, w') && (forall id <- ids :: id in w.paths) && SortedIds(w, ids)
    ensures SortedIds(w', ids)
    ensures forall a, b :: a in w.paths && b in w.paths ==> (Older(w, a, b) <==> Older(w', a, b))
  {
    hide ValidPath;
    forall id | id in w.paths ensures w'.Row(id).createdAt == w.Row(id).createdAt {
      PathKeepsIdentity(w.paths[id], w'.paths[id], p.coordinator.Limit());
    }
    forall i, j | 0 <= i < j < |ids| ensures Older(w', ids[i], ids[j]) { assert ids[i] in ids && ids[j] in ids; }
  }

  lemma ApplyKeepsOrder(w: World, op: Op, p: Policy)
    requires WorldValid(w, p) && InOrder(w)
    ensures InOrder(Apply(w, op, p))
  {
    hide ValidPath, Follows, Tick;
    ApplyValid(w, op, p);
    var w' := Apply(w, op, p);
    if op.Schedule? {
      if ScheduleIn(w, op).Some? {
        InsertKeepsSorted(w, w', w.listing, op.id, op.now);
        InsertKeepsOnce(w, w.listing, op.id, op.now);
      }
    } else {
      ApplyKeepsKeys(w, op, p);
      SortedKept(w, w', p, w.listing);
    }
  }

  lemma {:induction false} EveryRunListsInOrder(ops: seq<Op>, p: Policy)
    ensures InOrder(Run(ops, p))
  {
    hide ValidPath, Apply;
    if ops != [] {
      EveryRunListsInOrder(ops[..|ops| - 1], p);
      EveryRunFollows(ops[..|ops| - 1], p);
      ApplyKeepsOrder(Run(ops[..|ops| - 1], p), ops[|ops| - 1], p);
    }
  }

  lemma {:induction false} FirstIsOldest(w: World, ids: seq<Id>, now: int)
    requires (forall id <- ids :: id in w.paths) && SortedIds(w, ids)
    ensures var found := FirstCandidate(w, ids, now);
            found.Some? ==> forall id <- ids :: Candidate(w.Row(id), now) ==> Older(w, found.value, id)
  {
    if ids != [] {
      assert SortedIds(w, ids[1..]);
      FirstIsOldest(w, ids[1..], now);
      forall id | id in ids && id !in ids[1..] ensures id == ids[0] {}
      forall id | id in ids[1..] ensures Older(w, ids[0], id) {
        var m :| 0 <= m < |ids[1..]| && ids[1..][m] == id;
        assert ids[m + 1] == id;
      }
    }
  }

  // In any run the claim takes the oldest row that is claimable and whose lease is free.
  lemma ClaimTakesOldest(ops: seq<Op>, p: Policy, now: int)
    ensures var w := Run(ops, p);
            var found := FirstCandidate(w, w.listing, now);
            && (found.Some? <==> exists id :: id in w.paths && Candidate(w.Row(id), now))
            && (found.Some? ==> forall id :: id in w.paths && Candidate(w.Row(id), now) ==> Older(w, found.value, id))
  {
    EveryRunListsInOrder(ops, p);
    var w := Run(ops, p);
    FirstIsOldest(w, w.listing, now);
  }
}
