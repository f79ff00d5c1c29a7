/** What draining the control requests does to the database. */
module Drain {
  import opened Wrappers
  import opened Lifecycle
  import opened Rows
  import opened Machine
  import opened SupervisorSpec

  ghost predicate CancelPending(w: World, k: nat, id: Id) {
    exists i :: k <= i < |w.requests| && w.requests[i].pending && w.requests[i].cancel && w.requests[i].id == id
  }

  // The state a cancellation leaves a row in; preflight is excluded by the callers.
  function CancelledState(s: State): State {
    match s
    case Planned => Cancelled
    case Active => CancellationRequested
    case _ => s
  }

  // Cancelling twice is cancelling once, so neither order nor duplicates matter.
  lemma CancelIdempotent(s: State)
    ensures CancelledState(CancelledState(s)) == CancelledState(s)
  {
  }

  ghost predicate NoPreflightCancel(w: World, k: nat) {
    forall id :: id in w.paths && w.Row(id).state == State.Preflight ==> !CancelPending(w, k, id)
  }

  ghost predicate NonePending(w: World, from: nat) {
    forall i :: from <= i < |w.requests| ==> !w.requests[i].pending
  }

  // A row as it was, or with the one transition a cancellation makes.
  ghost predicate CancelledOnce(r: Row, r': Row) {
    exists requester ::
      var swap := CasTransition(r.state, r, CancelledState(r.state), AbortRequested, requester, r.revision);
      swap.Moved? && r' == swap.row
  }

  ghost predicate Drained(w: World, w': World, k: nat) {
    && w'.paths.Keys == w.paths.Keys && |w'.requests| == |w.requests|
    && NonePending(w', k) && (forall i :: 0 <= i < k && i < |w.requests| ==> w'.requests[i] == w.requests[i])
    && forall id :: id in w.paths ==>
         if CancelPending(w, k, id) && CancelledState(w.Row(id).state) != w.Row(id).state
         then CancelledOnce(w.Row(id), w'.Row(id))
         else w'.Row(id) == w.Row(id)
  }

  // One cancellation of a row that is not in preflight.
  lemma CancelRowEffect(s: Sys, id: Id, requester: string)
    requires id in s.world.paths && s.world.Row(id).state != State.Preflight
    ensures var r := CancelRow(JobFor(s, id), requester);
            && !r.Raised?
            && (r.Done? ==>
                  if CancelledState(s.world.Row(id).state) != s.world.Row(id).state
                  then CancelledOnce(s.world.Row(id), r.state.Saved())
                  else r.state.path == s.world.paths[id])
  {
    var row := s.world.Row(id);
    if CancelledState(row.state) != row.state {
      var swap := CasTransition(row.state, row, CancelledState(row.state), AbortRequested, requester, row.revision);
      assert swap.Moved?;
      var r := CancelRow(JobFor(s, id), requester);
      if r.Done? { assert r.state.Saved() == swap.row; }
    }
  }

  lemma DrainOneEffect(s: Sys, k: nat)
    requires k < |s.world.requests| && NoPreflightCancel(s.world, k)
    ensures var r := DrainOne(s, k);
            && !r.Raised?
            && (r.Done? ==>
                  var request := s.world.requests[k];
                  && r.state.world.requests == s.world.requests[k := request.(pending := false)]
                  && forall id :: id in s.world.paths ==>
                       if request.pending && request.cancel && request.id == id && CancelledState(s.world.Row(id).state) != s.world.Row(id).state
                       then CancelledOnce(s.world.Row(id), r.state.world.Row(id))
                       else r.state.world.Row(id) == s.world.Row(id))
  {
    hide CancelRow, CancelledOnce;
    var request := s.world.requests[k];
    if request.pending && request.cancel && request.id in s.world.paths {
      assert CancelPending(s.world, k, request.id);
      CancelRowEffect(s, request.id, request.requester);
    }
  }

  lemma CancelledOnceState(r: Row, r': Row)
    requires CancelledOnce(r, r')
    ensures r'.state == CancelledState(r.state) && r'.state != State.Preflight
  {
  }

  lemma PendingSplits(w: World, w': World, k: nat, id: Id)
    requires k < |w.requests| && w'.requests == w.requests[k := w.requests[k].(pending := false)]
    ensures CancelPending(w, k, id) <==>
            (w.requests[k].pending && w.requests[k].cancel && w.requests[k].id == id) || CancelPending(w', k + 1, id)
  {
    if CancelPending(w, k, id) {
      var i :| k <= i < |w.requests| && w.requests[i].pending && w.requests[i].cancel && w.requests[i].id == id;
      if i > k { assert w'.requests[i] == w.requests[i]; }
    }
    if CancelPending(w', k + 1, id) {
      var i :| k + 1 <= i < |w'.requests| && w'.requests[i].pending && w'.requests[i].cancel && w'.requests[i].id == id;
      assert w.requests[i] == w'.requests[i];
    }
  }

  // If no row in preflight has a pending cancellation, a drain that is not cut short leaves
  // nothing pending, turns exactly the cancelled planned rows to cancelled and active rows to
  // cancellation_requested, and leaves every other row as it was.
  lemma {:induction false} DrainEffect(s: Sys, k: nat)
    requires k <= |s.world.requests| && NoPreflightCancel(s.world, k)
    ensures var r := DrainFrom(s, k); !r.Raised? && (r.Done? ==> Drained(s.world, r.state.world, k))
    decreases |s.world.requests| - k
  {
    hide DrainOne, CancelledOnce;
    if k < |s.world.requests| {
      DrainOneEffect(s, k);
      var one := DrainOne(s, k);
      if one.Done? {
        var w, w1 := s.world, one.state.world;
        assert w1.requests == w.requests[k := w.requests[k].(pending := false)];
        forall id | id in w.paths
          ensures w1.Row(id).state == State.Preflight ==> !CancelPending(w1, k + 1, id)
        {
          PendingSplits(w, w1, k, id);
          if w1.Row(id) != w.Row(id) { CancelledOnceState(w.Row(id), w1.Row(id)); }
        }
        DrainEffect(one.state, k + 1);
        var r := DrainFrom(one.state, k + 1);
        if r.Done? { DrainedCompose(w, w1, r.state.world, k); }
      }
    }
  }

  lemma DrainedCompose(w: World, w1: World, w2: World, k: nat)
    requires k < |w.requests| && w1.requests == w.requests[k := w.requests[k].(pending := false)]
    requires w1.paths.Keys == w.paths.Keys && Drained(w1, w2, k + 1)
    requires forall id :: id in w.paths ==>
               if w.requests[k].pending && w.requests[k].cancel && w.requests[k].id == id && CancelledState(w.Row(id).state) != w.Row(id).state
               then CancelledOnce(w.Row(id), w1.Row(id))
               else w1.Row(id) == w.Row(id)
    requires |w2.requests| > k && !w2.requests[k].pending
    ensures Drained(w, w2, k)
  {
    hide CancelledOnce, CancelPending;
    forall id | id in w.paths
      ensures if CancelPending(w, k, id) && CancelledState(w.Row(id).state) != w.Row(id).state
              then CancelledOnce(w.Row(id), w2.Row(id)) else w2.Row(id) == w.Row(id)
    {
      PendingSplits(w, w1, k, id);
      if w1.Row(id) != w.Row(id) || CancelledOnce(w.Row(id), w1.Row(id)) {
        CancelledOnceState(w.Row(id), w1.Row(id));
        CancelIdempotent(w.Row(id).state);
      }
    }
  }

  // The states a drain leaves depend on which experiments have a pending cancellation, not on the
  // order of the requests, their duplicates or who asked.
  lemma DrainOrderIrrelevant(s: Sys, t: Sys)
    requires s.world.paths == t.world.paths
    requires NoPreflightCancel(s.world, 0) && NoPreflightCancel(t.world, 0)
    requires forall id :: id in s.world.paths ==> (CancelPending(s.world, 0, id) <==> CancelPending(t.world, 0, id))
    ensures var r, q := DrainFrom(s, 0), DrainFrom(t, 0);
            r.Done? && q.Done? ==>
              forall id :: id in s.world.paths ==> r.state.world.Row(id).state == q.state.world.Row(id).state
  {
    hide DrainFrom, CancelledOnce, CancelPending;
    DrainEffect(s, 0);
    DrainEffect(t, 0);
    var r, q := DrainFrom(s, 0), DrainFrom(t, 0);
    if r.Done? && q.Done? {
      forall id | id in s.world.paths ensures r.state.world.Row(id).state == q.state.world.Row(id).state {
        var row := s.world.Row(id);
        if CancelPending(s.world, 0, id) && CancelledState(row.state) != row.state {
          CancelledOnceState(row, r.state.world.Row(id));
          CancelledOnceState(row, q.state.world.Row(id));
        }
      }
    }
  }

  /******* Cancelling a row in preflight *******/

  // The graph has no edge from preflight to cancellation_requested, so such a request raises; it
  // stays pending, and so does everything behind it.
  lemma PreflightCancelRaises(s: Sys, id: Id, requester: string)
    requires id in s.world.paths && s.world.Row(id).state == State.Preflight
    ensures CancelRow(JobFor(s, id), requester) == Raised(TransitionNotAllowed, JobFor(s, id))
  {
  }

  lemma DrainOneKeepsPreflight(s: Sys, k: nat, id: Id)
    requires k < |s.world.requests| && id in s.world.paths && s.world.Row(id).state == State.Preflight
    requires CancelPending(s.world, k, id)
    ensures var r := DrainOne(s, k);
            r.Done? ==> r.state.world.Row(id) == s.world.Row(id) && CancelPending(r.state.world, k + 1, id)
  {
    hide CancelRow, CancelPending;
    var request := s.world.requests[k];
    PreflightCancelRaises(s, id, request.requester);
    var r := DrainOne(s, k);
    if r.Done? {
      assert r.state.world.requests == s.world.requests[k := request.(pending := false)];
      PendingSplits(s.world, r.state.world, k, id);
    }
  }

  // So the condition of the drain's effect is exact: with a cancelled row in preflight the drain
  // never completes.
  lemma {:induction false} DrainCompletesOnlyWithout(s: Sys, k: nat)
    requires k <= |s.world.requests| && !NoPreflightCancel(s.world, k)
    ensures !DrainFrom(s, k).Done?
    decreases |s.world.requests| - k
  {
    hide DrainOne, CancelPending;
    var id :| id in s.world.paths && s.world.Row(id).state == State.Preflight && CancelPending(s.world, k, id);
    if k == |s.world.requests| {
      NothingBeyondEnd(s.world, id);
    } else {
      DrainOneKeepsPreflight(s, k, id);
      var one := DrainOne(s, k);
      if one.Done? { DrainCompletesOnlyWithout(one.state, k + 1); }
    }
  }

  lemma NothingBeyondEnd(w: World, id: Id)
    ensures !CancelPending(w, |w.requests|, id)
  {
  }

  // Two commits at most for each request are enough.
  lemma {:induction false} DrainLives(s: Sys, k: nat)
    requires k <= |s.world.requests| && NoPreflightCancel(s.world, k) && s.env.life >= 2 * (|s.world.requests| - k)
    ensures DrainFrom(s, k).Done?
    decreases |s.world.requests| - k
  {
    hide DrainOne, CancelledOnce, CancelPending;
    if k < |s.world.requests| {
      DrainOneEffect(s, k);
      ServedWithin(s, k);
      var one := DrainOne(s, k);
      assert one.state.world.requests == s.world.requests[k := s.world.requests[k].(pending := false)];
      forall id | id in s.world.paths && one.state.world.Row(id).state == State.Preflight
        ensures !CancelPending(one.state.world, k + 1, id)
      {
        PendingSplits(s.world, one.state.world, k, id);
        if one.state.world.Row(id) != s.world.Row(id) { CancelledOnceState(s.world.Row(id), one.state.world.Row(id)); }
      }
      DrainLives(one.state, k + 1);
    }
  }

  lemma ServedWithin(s: Sys, k: nat)
    requires k < |s.world.requests| && NoPreflightCancel(s.world, k) && s.env.life >= 2
    ensures DrainOne(s, k).Done? && DrainOne(s, k).state.env.life >= s.env.life - 2
  {
    var request := s.world.requests[k];
    if request.pending && request.cancel && request.id in s.world.paths {
      assert CancelPending(s.world, k, request.id);
      var r := CancelRow(JobFor(s, request.id), request.requester);
      assert r.Done? && r.state.env.life >= s.env.life - 1;
    }
  }

  // The exact condition, read before the drain: some process gets through it exactly when no row
  // in preflight has a pending cancellation.
  lemma DrainCompletesExactly(w: World)
    ensures (exists env :: DrainFrom(Sys(w, env), 0).Done?) <==> NoPreflightCancel(w, 0)
  {
    hide DrainFrom, NoPreflightCancel;
    if NoPreflightCancel(w, 0) {
      var env := Env([], [], [], 0, [], 2 * |w.requests|);
      DrainLives(Sys(w, env), 0);
      assert DrainFrom(Sys(w, env), 0).Done?;
    } else {
      forall env ensures !DrainFrom(Sys(w, env), 0).Done? { DrainCompletesOnlyWithout(Sys(w, env), 0); }
    }
  }

  // And a supervisor that is past its restart makes no progress at all: while the first pending
  // request cancels a row in preflight, every tick raises and changes nothing durable.
  lemma PreflightCancelBlocksTicks(s: Sys, p: Policy, k: nat)
    requires s.world.Indexed() && s.world.reconciled && k < |s.world.requests|
    requires forall i :: 0 <= i < k ==> !s.world.requests[i].pending
    requires var request := s.world.requests[k];
             request.pending && request.cancel && request.id in s.world.paths &&
             s.world.Row(request.id).state == State.Preflight
    ensures Tick(s, p) == Raised(TransitionNotAllowed, s)
  {
    SkipProcessed(s, 0, k);
  }

  lemma {:induction false} SkipProcessed(s: Sys, i: nat, k: nat)
    requires i <= k < |s.world.requests|
    requires forall m :: i <= m < k ==> !s.world.requests[m].pending
    requires var request := s.world.requests[k];
             request.pending && request.cancel && request.id in s.world.paths &&
             s.world.Row(request.id).state == State.Preflight
    ensures DrainFrom(s, i) == Raised(TransitionNotAllowed, s)
    decreases k - i
  {
    if i < k {
      SkipProcessed(s, i + 1, k);
    } else {
      var request := s.world.requests[k];
      PreflightCancelRaises(s, request.id, request.requester);
      assert Merge(s, request.id, JobFor(s, request.id)) == s;
    }
  }
}
