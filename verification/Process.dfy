/** One agent process: its database session and the ports it calls.

    The session holds a pending copy of every row; commit makes all of it durable. The ghost
    `paths` keep, for every experiment, the durable conditions it has been in. */
module Process {
  import opened Wrappers
  import opened Lifecycle
  import opened Rows
  import opened Machine
  import opened SupervisorSpec
  import CoordinatorSpec

  // How a call ends for its caller.
  datatype Ending<+T> = Returned(value: T) | Threw(error: Error) | Killed(place: Place)
  {
    predicate IsFailure() { !Returned? }

    function PropagateFailure<U>(): Ending<U>
      requires IsFailure()
    {
      if Threw? then Threw(error) else Killed(place)
    }

    function Extract(): T
      requires Returned?
    {
      value
    }
  }

  // The outcome of a call together with the state it leaves.
  function Ended<T, S>(ending: Ending<T>, state: S): Result<T, S> {
    match ending
    case Returned(value) => Done(value, state)
    case Threw(error) => Raised(error, state)
    case Killed(place) => Died(place, state)
  }

  /******* Queries over the tables of one experiment *******/

  method HighestAttempt(attempts: seq<Attempt>) returns (highest: nat)
    ensures highest == MaxAttempt(attempts)
  {
    highest := 0;
    for i := 0 to |attempts|
      invariant highest == MaxAttempt(attempts[..i])
    {
      assert attempts[..i + 1][..i] == attempts[..i];
      if attempts[i].number > highest { highest := attempts[i].number; }
    }
    assert attempts[..|attempts|] == attempts;
  }

  method HighestSequence(observations: seq<Observation>, phase: Phase) returns (highest: nat)
    ensures highest == MaxSequence(observations, phase)
  {
    highest := 0;
    for i := 0 to |observations|
      invariant highest == MaxSequence(observations[..i], phase)
    {
      assert observations[..i + 1][..i] == observations[..i];
      if observations[i].phase == phase && observations[i].sequence > highest { highest := observations[i].sequence; }
    }
    assert observations[..|observations|] == observations;
  }

  lemma {:induction false} InsertedAt(w: World, ids: seq<Id>, id: Id, created: int, i: nat)
    requires i <= |ids| && (forall k <- ids :: k in w.paths)
    requires forall k :: 0 <= k < i ==> !Precedes(w, id, created, ids[k])
    requires i == |ids| || Precedes(w, id, created, ids[i])
    ensures Insert(w, ids, id, created) == ids[..i] + [id] + ids[i..]
  {
    if i > 0 {
      InsertedAt(w, ids[1..], id, created, i - 1);
      assert ids[..i] == [ids[0]] + ids[1..][..i - 1];
      assert ids[i..] == ids[1..][i - 1..];
    }
  }

  lemma ScheduleMade(w: World, op: Op)
    requires op.Schedule? && w.Indexed()
    ensures ScheduleIn(w, op) ==
            if op.duration < 1 || op.duration > HARD_MAX_DURATION_SECONDS || op.id in w.paths || !TargetFree(w, op.target) then None
            else
              var row := NewRow(op.kind, op.parameters, op.target, op.now, op.now + op.duration, op.actor);
              Some(w.(paths := w.paths[op.id := Born(Cell(row, Silent))], listing := Insert(w, w.listing, op.id, op.now)))
  {
  }

  lemma ActiveStep(w: World, ids: seq<Id>)
    requires ids != [] && forall id <- ids :: id in w.paths
    ensures ActiveIds(w, ids) ==
            (if Terminal(w.Row(ids[0]).state) then [] else [ids[0]]) + ActiveIds(w, ids[1..])
  {
  }

  lemma ActiveEnd(w: World)
    ensures ActiveIds(w, []) == []
  {
  }

  /******* The session of one process *******/

  function Answer(swap: Swap): Ending<Row> {
    match swap
    case Moved(row) => Returned(row)
    case Refused => Threw(TransitionNotAllowed)
    case Stale => Threw(RevisionConflict)
  }

  lemma TransitAnswers(j: Job, target: State, reason: Reason, actor: string)
    ensures var answer := Answer(CasTransition(j.live.state, j.live, target, reason, actor, j.live.revision));
            Transit(j, target, reason, actor) ==
            if answer.Returned? then Done((), j.(live := answer.value)) else Ended(answer.PropagateFailure(), j)
  {
  }

  // The validated update of one row, guarded by its revision, with its audit entry.
  method CompareAndSwap(row: Row, target: State, reason: Reason, actor: string, expected: int)
    returns (r: Ending<Row>)
    ensures r == Answer(CasTransition(row.state, row, target, reason, actor, expected))
    ensures row.revision != expected ==> r.Threw?
  {
    var current := row.state;
    if !Allowed(current, target) { return Threw(TransitionNotAllowed); }
    if row.revision != expected { return Threw(RevisionConflict); }
    var entry := Rows.Transition(expected + 2, Some(current), target, reason, actor, expected + 1);
    return Returned(row.(state := target, revision := expected + 1, audit := row.audit + [entry]));
  }

  // Everything a call on one experiment leaves alone.
  datatype Rest = Rest(paths: map<Id, Path>, listing: seq<Id>, requests: seq<Request>)

  class Agent {
    var committed: map<Id, Row>
    var pending: map<Id, Row>
    var listing: seq<Id>
    var requests: seq<Request>
    var completing: seq<Request>
    var env: Env
    ghost var paths: map<Id, Path>

    ghost predicate Valid()
      reads this
    {
      && pending.Keys == committed.Keys == paths.Keys
      && (forall id :: id in paths ==> committed[id] == paths[id].cell.row)
      && (forall id :: id in listing <==> id in paths)
    }

    // Nothing is pending.
    ghost predicate Clean()
      reads this
    {
      Valid() && pending == committed && completing == requests
    }

    // Nothing is pending but what belongs to one experiment.
    ghost predicate Focused(id: Id)
      reads this
    {
      && Valid() && id in paths && completing == requests
      && forall other :: other in pending && other != id ==> pending[other] == committed[other]
    }

    ghost function JobOf(id: Id): Job
      requires Focused(id)
      reads this
    {
      Job(paths[id], pending[id], env)
    }

    ghost function Others(id: Id): Rest
      reads this
    {
      Rest(paths - {id}, listing, requests)
    }

    lemma CleanFocused(id: Id)
      requires Clean() && id in paths
      ensures Focused(id) && JobOf(id) == Job(paths[id], paths[id].cell.row, env)
    {
    }

    lemma FocusedClean(id: Id)
      requires Focused(id) && JobOf(id).Clean()
      ensures Clean()
    {
    }

    lemma FocusedKnown(id: Id)
      requires Focused(id)
      ensures Valid() && id in paths && JobOf(id).path == paths[id] && JobOf(id).env == env
    {
    }

    // A process that starts on an existing database.
    constructor (rows: map<Id, Row>, listing: seq<Id>, requests: seq<Request>, env: Env, ghost paths: map<Id, Path>)
      requires rows.Keys == paths.Keys && (forall id :: id in listing <==> id in paths)
      requires forall id :: id in paths ==> rows[id] == paths[id].cell.row
      ensures Clean() && this.paths == paths && this.listing == listing && this.requests == requests && this.env == env
    {
      this.committed, this.pending, this.listing := rows, rows, listing;
      this.requests, this.completing, this.env, this.paths := requests, requests, env, paths;
    }

    /******* The session *******/

    method Spend(place: Place) returns (r: Ending<()>)
      modifies this`env
      ensures r == if old(env.life) == 0 then Killed(place) else Returned(())
      ensures env == if old(env.life) == 0 then old(env) else old(env).(life := old(env).life - 1)
    {
      if env.life == 0 { return Killed(place); }
      env := env.(life := env.life - 1);
      return Returned(());
    }

    // Everything pending becomes durable at once, or the process dies and nothing does.
    method Commit() returns (r: Ending<()>)
      requires Valid()
      modifies this
      ensures Valid() && listing == old(listing) && pending == old(pending) && completing == old(completing)
      ensures r == if old(env.life) == 0 then Killed(AtCommit) else Returned(())
      ensures env == if old(env.life) == 0 then old(env) else old(env).(life := old(env).life - 1)
      ensures r.Killed? ==> committed == old(committed) && requests == old(requests) && paths == old(paths)
      ensures r.Returned? ==> Clean() && paths.Keys == old(paths.Keys)
      ensures r.Returned? ==> forall id :: id in paths ==> paths[id] == Extended(old(paths)[id], pending[id])
    {
      var _ :- Spend(AtCommit);
      committed, requests := pending, completing;
      paths := map id | id in paths :: Extended(paths[id], pending[id]);
      return Returned(());
    }

    method Rollback()
      requires Valid()
      modifies this
      ensures Clean() && env == old(env) && paths == old(paths) && listing == old(listing) && requests == old(requests)
      ensures pending == old(committed)
    {
      pending, completing := committed, requests;
    }

    // Commit, seen from the one experiment that has anything pending.
    method CommitRow(id: Id) returns (r: Ending<()>)
      requires Focused(id)
      modifies this
      ensures Focused(id) && Others(id) == old(Others(id))
      ensures Ended(r, JobOf(id)) == Machine.Commit(old(JobOf(id)))
      ensures r.Returned? ==> Clean()
    {
      label before:
      r := Commit();
      if r.Returned? {
        forall other | other in paths && other != id ensures paths[other] == old@before(paths[other]) {
          assert old@before(pending[other]) == old@before(committed[other]);
        }
        assert paths - {id} == old(paths) - {id};
      }
    }

    method RollbackRow(id: Id)
      requires Focused(id)
      modifies this
      ensures Focused(id) && Others(id) == old(Others(id)) && Clean()
      ensures JobOf(id) == Machine.Rollback(old(JobOf(id)))
    {
      Rollback();
    }

    // One row of the session changes in place.
    method Put(id: Id, row: Row)
      requires Focused(id)
      modifies this`pending
      ensures Focused(id) && Others(id) == old(Others(id))
      ensures JobOf(id) == old(JobOf(id)).(live := row)
    {
      pending := pending[id := row];
    }

    ghost method Note(id: Id, e: Event)
      requires Focused(id)
      modifies this`paths
      ensures Focused(id) && Others(id) == old(Others(id))
      ensures JobOf(id) == Machine.Note(old(JobOf(id)), e)
    {
      paths := paths[id := Then(paths[id], Cell(paths[id].cell.row, Logged(paths[id].cell.log, e)))];
      assert paths - {id} == old(paths) - {id};
    }

    /******* The repository *******/

    method Get(id: Id) returns (row: Row)
      requires Focused(id)
      ensures row == JobOf(id).live
    {
      row := pending[id];
    }

    method Transition(id: Id, target: State, reason: Reason, actor: string, expected: int) returns (r: Ending<()>)
      requires Focused(id)
      modifies this`pending
      ensures Focused(id) && Others(id) == old(Others(id))
      ensures expected == old(JobOf(id)).live.revision ==>
                Ended(r, JobOf(id)) == Transit(old(JobOf(id)), target, reason, actor)
      ensures expected != old(JobOf(id)).live.revision ==> r.Threw? && JobOf(id) == old(JobOf(id))
    {
      hide Focused, Others, CasTransition, JobOf, Valid, Answer, Transit;
      var row := Get(id);
      TransitAnswers(JobOf(id), target, reason, actor);
      var moved :- CompareAndSwap(row, target, reason, actor, expected);
      Put(id, moved);
      return Returned(());
    }

    method NextAttemptNumber(id: Id) returns (number: nat)
      requires Focused(id)
      ensures number == NextAttempt(JobOf(id).live.attempts)
    {
      var highest := HighestAttempt(pending[id].attempts);
      number := highest + 1;
    }

    method RecordAttempt(id: Id, attempt: Attempt) returns (added: bool)
      requires Focused(id)
      modifies this
      ensures Focused(id) && Others(id) == old(Others(id))
      ensures JobOf(id) == Machine.RecordAttempt(old(JobOf(id)), attempt)
      ensures added <==> forall a <- old(JobOf(id)).live.attempts :: a.number != attempt.number
    {
      var row := pending[id];
      if exists a <- row.attempts :: a.number == attempt.number {
        RollbackRow(id);
        return false;
      }
      Put(id, row.(attempts := row.attempts + [attempt]));
      return true;
    }

    method NextObservationSequence(id: Id, phase: Phase) returns (sequence: nat)
      requires Focused(id)
      ensures sequence == NextSequence(JobOf(id).live.observations, phase)
    {
      var highest := HighestSequence(pending[id].observations, phase);
      sequence := highest + 1;
    }

    method RecordObservation(id: Id, phase: Phase, sequence: nat, sight: Sight)
      requires Focused(id)
      modifies this`pending
      ensures Focused(id) && Others(id) == old(Others(id))
      ensures sequence == NextSequence(old(JobOf(id)).live.observations, phase) ==>
                JobOf(id) == CoordinatorSpec.Sighted(old(JobOf(id)), phase, sight)
    {
      var row := pending[id];
      Put(id, row.(observations := row.observations + [Observation(phase, sequence, sight)]));
    }

    // Where a query ordered by creation time and id will list a new experiment.
    method Place(id: Id, created: int, ghost w: World) returns (listed: seq<Id>)
      requires Clean() && w.paths == paths && w.listing == listing
      ensures listed == Insert(w, listing, id, created)
    {
      var i := 0;
      while i < |listing| && !(created < pending[listing[i]].createdAt ||
                               (created == pending[listing[i]].createdAt && id <= listing[i]))
        invariant i <= |listing|
        invariant forall k :: 0 <= k < i ==> listing[k] in w.paths && !Precedes(w, id, created, listing[k])
      {
        i := i + 1;
      }
      InsertedAt(w, listing, id, created, i);
      listed := listing[..i] + [id] + listing[i..];
    }

    // The primary key and the unique index over the live experiments of a target.
    method Conflicts(id: Id, target: Target, ghost w: World) returns (conflict: bool)
      requires Clean() && w.paths == paths
      ensures conflict == (id in w.paths || !TargetFree(w, target))
    {
      return id in pending ||
             exists other <- pending :: pending[other].target == target && !Terminal(pending[other].state);
    }

    method Add(id: Id, row: Row, listed: seq<Id>)
      requires Clean() && id !in paths && forall other :: other in listed <==> other in listing || other == id
      modifies this
      ensures Clean() && env == old(env) && requests == old(requests)
      ensures listing == listed && paths == old(paths)[id := Born(Cell(row, Silent))]
    {
      pending, committed := pending[id := row], committed[id := row];
      listing, paths := listed, paths[id := Born(Cell(row, Silent))];
    }

    // A new planned experiment, unless its id or the live experiment of its target is in the way.
    method Schedule(id: Id, kind: Kind, parameters: Parameters, target: Target, now: int, duration: int, actor: string,
                    ghost w: World) returns (scheduled: bool)
      requires Clean() && w.Indexed() && w.paths == paths && w.listing == listing && w.requests == requests
      modifies this
      ensures Clean() && env == old(env)
      ensures var made := ScheduleIn(w, Op.Schedule(id, kind, parameters, target, now, duration, actor));
              && scheduled == made.Some?
              && w.(paths := paths, listing := listing, requests := requests) == if scheduled then made.value else w
    {
      ghost var op := Op.Schedule(id, kind, parameters, target, now, duration, actor);
      ScheduleMade(w, op);
      hide Insert, TargetFree, ScheduleIn, NewRow, Clean;
      if duration < 1 || duration > HARD_MAX_DURATION_SECONDS { return false; }
      var conflict := Conflicts(id, target, w);
      if conflict { return false; }
      var listed := Place(id, now, w);
      var row := NewRow(kind, parameters, target, now, now + duration, actor);
      Add(id, row, listed);
      return true;
    }

    // A durable control request; a key already used leaves the earlier request as it is.
    method RequestControl(id: Id, cancel: bool, requester: string, key: string, ghost w: World) returns (queued: bool)
      requires Clean() && w.paths == paths && w.requests == requests
      modifies this
      ensures Clean() && env == old(env) && paths == old(paths) && listing == old(listing)
      ensures w.(requests := requests) == Asked(w, Ask(id, cancel, requester, key))
      ensures queued <==> id in paths && forall r <- old(requests) :: r.key != key
    {
      if id !in pending || exists r <- requests :: r.key == key { return false; }
      requests := requests + [Request(id, cancel, requester, key, true)];
      completing := requests;
      return true;
    }

    // The experiments that are not over, in listing order.
    method ListActive(ghost w: World) returns (active: seq<Id>)
      requires Clean() && w.paths == paths && w.listing == listing
      ensures active == ActiveIds(w, listing)
    {
      hide ActiveIds;
      active := [];
      for i := 0 to |listing|
        invariant ActiveIds(w, listing) == active + ActiveIds(w, listing[i..])
      {
        assert listing[i] in listing;
        ActiveStep(w, listing[i..]);
        assert listing[i..][1..] == listing[i + 1..];
        if pending[listing[i]].state !in {Passed, Cancelled, Failed, OperatorAttention} { active := active + [listing[i]]; }
      }
      ActiveEnd(w);
      assert listing[|listing|..] == [];
    }

    // The first experiment in listing order that is selectable and whose lease is free.
    method OldestCandidate(now: int, ghost w: World) returns (candidate: Option<Id>)
      requires Clean() && w.paths == paths && w.listing == listing
      ensures candidate == FirstCandidate(w, listing, now)
    {
      for i := 0 to |listing|
        invariant FirstCandidate(w, listing, now) == FirstCandidate(w, listing[i..], now)
      {
        var id := listing[i];
        assert id in listing && listing[i..][0] == id && listing[i..][1..] == listing[i + 1..];
        var row := pending[id];
        if row.state in {Planned, Preflight, Active, Expired, CancellationRequested, CleaningUp, CleanupFailed}
           && (row.owner.None? || row.leaseUntil < now)
        {
          return Some(id);
        }
      }
      return None;
    }

    method ClaimNext(instance: Instance, now: int, seconds: int, ghost w: World) returns (claimed: Option<Id>)
      requires Clean() && w.paths == paths && w.listing == listing
      modifies this`pending
      ensures claimed == FirstCandidate(w, listing, now)
      ensures claimed.None? ==> pending == old(pending)
      ensures claimed.Some? ==> Focused(claimed.value)
      ensures claimed.Some? ==>
                var row := ClaimRow(old(pending)[claimed.value], instance, now, seconds);
                JobOf(claimed.value) == Job(paths[claimed.value], row, env)
    {
      claimed := OldestCandidate(now, w);
      if claimed.Some? {
        var row := pending[claimed.value];
        pending := pending[claimed.value := row.(owner := Some(instance), leaseUntil := now + seconds)];
      }
    }

    method RenewLease(id: Id, instance: Instance, now: int, seconds: int) returns (renewed: bool)
      requires Focused(id)
      modifies this`pending
      ensures Focused(id) && Others(id) == old(Others(id))
      ensures renewed == (old(JobOf(id)).live.owner == Some(instance))
      ensures JobOf(id) == old(JobOf(id)).(live := RenewRow(old(JobOf(id)).live, instance, now, seconds))
    {
      var row := pending[id];
      renewed := row.owner == Some(instance);
      if renewed { Put(id, row.(leaseUntil := now + seconds)); }
    }

    method ReleaseLease(id: Id, instance: Instance) returns (released: bool)
      requires Focused(id)
      modifies this`pending
      ensures Focused(id) && Others(id) == old(Others(id))
      ensures released == (old(JobOf(id)).live.owner == Some(instance))
      ensures JobOf(id) == old(JobOf(id)).(live := ReleaseRow(old(JobOf(id)).live, instance))
    {
      var row := pending[id];
      released := row.owner == Some(instance);
      if released { Put(id, row.(owner := None, leaseUntil := 0)); }
    }

    // The positions of the pending control requests, oldest first.
    method PendingControlRequests() returns (found: seq<nat>)
      requires Clean()
      ensures forall i :: 0 <= i < |found| ==> found[i] < |requests| && requests[found[i]].pending
      ensures forall i, j :: 0 <= i < j < |found| ==> found[i] < found[j]
      ensures forall k :: 0 <= k < |requests| && requests[k].pending ==> k in found
    {
      found := [];
      for k := 0 to |requests|
        invariant forall i :: 0 <= i < |found| ==> found[i] < k && requests[found[i]].pending
        invariant forall i, j :: 0 <= i < j < |found| ==> found[i] < found[j]
        invariant forall m :: 0 <= m < k && requests[m].pending ==> m in found
      {
        if requests[k].pending { found := found + [k]; }
      }
    }

    method CompleteControlRequest(k: nat)
      requires Clean() && k < |requests|
      modifies this`completing
      ensures Valid() && pending == committed
      ensures completing == requests[k := requests[k].(pending := false)]
    {
      completing := completing[k := completing[k].(pending := false)];
    }

    /******* Ports *******/

    // A call goes out: the process may die while it waits.
    method Wait(id: Id) returns (r: Ending<()>)
      requires Focused(id)
      modifies this`env
      ensures Focused(id) && Others(id) == old(Others(id))
      ensures Ended(r, JobOf(id)) == Machine.Spend(old(JobOf(id)), AtPort)
    {
      r := Spend(AtPort);
    }

    method Clock() returns (now: int)
      modifies this`env
      ensures now == old(env.now)
      ensures env == if old(env.advances) == [] then old(env)
                     else old(env).(now := old(env.now) + old(env.advances)[0], advances := old(env.advances)[1..])
    {
      now := env.now;
      if env.advances != [] { env := env.(now := env.now + env.advances[0], advances := env.advances[1..]); }
    }

    method Now(id: Id) returns (now: int)
      requires Focused(id)
      modifies this`env
      ensures Focused(id) && Others(id) == old(Others(id))
      ensures (now, JobOf(id)) == ReadClock(old(JobOf(id)))
    {
      now := Clock();
    }

    method CallControl(id: Id) returns (r: Ending<Reading>)
      requires Focused(id)
      modifies this`env
      ensures Focused(id) && Others(id) == old(Others(id))
      ensures Ended(r, JobOf(id)) == AskControl(old(JobOf(id)))
    {
      var _ :- Spend(AtPort);
      if env.control == [] { return Threw(PortRaised); }
      var answer := env.control[0];
      env := env.(control := env.control[1..]);
      match answer
      case Reply(reading) => return Returned(reading);
      case Fault => return Threw(PortRaised);
    }

    method CheckTarget(id: Id) returns (r: Ending<bool>)
      requires Focused(id)
      modifies this
      ensures Focused(id) && Others(id) == old(Others(id))
      ensures Ended(r, JobOf(id)) == AskGate(old(JobOf(id)))
    {
      var _ :- Spend(AtPort);
      if env.gate == [] { return Threw(PortRaised); }
      var answer := env.gate[0];
      env := env.(gate := env.gate[1..]);
      match answer
      case Verdict(ok) => Note(id, Checked(ok)); return Returned(ok);
      case GateFault => return Threw(PortRaised);
    }

    // A raised observation error is recorded by its category.
    method ObserveSite(id: Id) returns (r: Ending<Sight>)
      requires Focused(id)
      modifies this`env
      ensures Focused(id) && Others(id) == old(Others(id))
      ensures Ended(r, JobOf(id)) == AskSite(old(JobOf(id)))
    {
      var _ :- Spend(AtPort);
      if env.site == [] { return Returned(Unseen("observation_failed")); }
      var sight := env.site[0];
      env := env.(site := env.site[1..]);
      return Returned(sight);
    }
  }
}
