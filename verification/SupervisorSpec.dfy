/** The supervisor's tick over the whole database, and the runs a deployment can make. */
module SupervisorSpec {
  import opened Wrappers
  import opened Lifecycle
  import opened Rows
  import opened Machine
  import opened CoordinatorSpec

  datatype Request = Request(id: Id, cancel: bool, requester: string, key: string, pending: bool)

  // `listing` is the order the queries return rows in: by creation time, then by id.
  datatype World =
    World(paths: map<Id, Path>, listing: seq<Id>, requests: seq<Request>, reconciled: bool, instance: Instance)
  {
    ghost predicate Indexed() { forall id :: id in listing <==> id in paths }

    function Row(id: Id): Row
      requires id in paths
    {
      paths[id].cell.row
    }
  }

  datatype Sys = Sys(world: World, env: Env)

  type SysResult<+T> = Result<T, Sys>

  datatype Policy = Policy(coordinator: Config, leaseSeconds: int)

  function JobFor(s: Sys, id: Id): Job
    requires id in s.world.paths
  {
    Job(s.world.paths[id], s.world.Row(id), s.env)
  }

  // What a computation on one experiment leaves of the whole.
  function Merge(s: Sys, id: Id, j: Job): Sys {
    Sys(s.world.(paths := s.world.paths[id := j.path]), j.env)
  }

  function Lift<T>(s: Sys, id: Id, r: JobResult<T>): SysResult<T> {
    match r
    case Done(value, j) => Done(value, Merge(s, id, j))
    case Raised(error, j) => Raised(error, Merge(s, id, j))
    case Died(place, j) => Died(place, Merge(s, id, j))
  }

  /******* Reconciliation after a restart *******/

  // The coordinator factory knows no scenario of an unlisted name.
  function Launch(j: Job, cfg: Config): JobResult<State> {
    if j.live.kind.Unlisted? then Raised(ScenarioUnavailable, j) else RunOnce(j, cfg)
  }

  function ReconcileRow(j: Job, cfg: Config): JobResult<seq<State>> {
    var (state, j) :- if j.live.state == Injecting then TransitAndCommit(j, CleaningUp, RestartUncertainInjection, cfg.actor)
                      else Done(j.live.state, j);
    if !NeedsCleanup(state) then Done([], j)
    else
      var (result, j) :- Launch(j, cfg);
      Done([result], j)
  }

  function ActiveIds(w: World, ids: seq<Id>): (active: seq<Id>)
    requires forall id <- ids :: id in w.paths
    ensures forall id :: id in active <==> id in ids && !Terminal(w.Row(id).state)
  {
    if ids == [] then []
    else (if Terminal(w.Row(ids[0]).state) then [] else [ids[0]]) + ActiveIds(w, ids[1..])
  }

  function ReconcileAll(s: Sys, ids: seq<Id>, cfg: Config): (r: SysResult<seq<State>>)
    requires forall id <- ids :: id in s.world.paths
    ensures r.state.world.paths.Keys == s.world.paths.Keys && r.state.world == s.world.(paths := r.state.world.paths)
    decreases |ids|
  {
    if ids == [] then Done([], s)
    else
      var (first, s) :- Lift(s, ids[0], ReconcileRow(JobFor(s, ids[0]), cfg));
      var (rest, s) :- ReconcileAll(s, ids[1..], cfg);
      Done(first + rest, s)
  }

  /******* The control-request drain *******/

  function CancelTarget(s: State): Option<State> {
    match s
    case Planned => Some(Cancelled)
    case Active => Some(CancellationRequested)
    case Preflight => Some(CancellationRequested)
    case _ => None
  }

  function CancelRow(j: Job, requester: string): JobResult<()> {
    if Terminal(j.live.state) then Done((), j)
    else
      var target := CancelTarget(j.live.state);
      var (_, j) :- if target.Some? then Transit(j, target.value, AbortRequested, requester) else Done((), j);
      Commit(j)
  }

  function CompleteRequest(s: Sys, k: nat): SysResult<()>
    requires k < |s.world.requests|
  {
    if s.env.life == 0 then Died(AtCommit, s)
    else
      var done := s.world.requests[k := s.world.requests[k].(pending := false)];
      Done((), Sys(s.world.(requests := done), s.env.(life := s.env.life - 1)))
  }

  function DrainOne(s: Sys, k: nat): (r: SysResult<()>)
    requires k < |s.world.requests|
    ensures r.state.world.paths.Keys == s.world.paths.Keys && |r.state.world.requests| == |s.world.requests|
    ensures r.state.world == s.world.(paths := r.state.world.paths, requests := r.state.world.requests)
  {
    var request := s.world.requests[k];
    if !request.pending then Done((), s)
    else
      var (_, s) :- if request.cancel && request.id in s.world.paths
                    then Lift(s, request.id, CancelRow(JobFor(s, request.id), request.requester))
                    else Done((), s);
      CompleteRequest(s, k)
  }

  function DrainFrom(s: Sys, k: nat): (r: SysResult<()>)
    requires k <= |s.world.requests|
    ensures r.state.world.paths.Keys == s.world.paths.Keys && |r.state.world.requests| == |s.world.requests|
    ensures r.state.world == s.world.(paths := r.state.world.paths, requests := r.state.world.requests)
    decreases |s.world.requests| - k
  {
    if k == |s.world.requests| then Done((), s)
    else
      var (_, s) :- DrainOne(s, k);
      DrainFrom(s, k + 1)
  }

  /******* Claim, renew, run, release *******/

  predicate Candidate(r: Row, now: int) { Claimable(r.state) && LeaseFree(r, now) }

  function FirstCandidate(w: World, ids: seq<Id>, now: int): (found: Option<Id>)
    requires forall id <- ids :: id in w.paths
    ensures found.Some? ==> found.value in ids && Candidate(w.Row(found.value), now)
    ensures found.None? ==> forall id <- ids :: !Candidate(w.Row(id), now)
  {
    if ids == [] then None
    else if Candidate(w.Row(ids[0]), now) then Some(ids[0])
    else FirstCandidate(w, ids[1..], now)
  }

  // The lease is given back whether the pass returned or raised.
  function Finally(r: JobResult<State>, instance: Instance): JobResult<seq<State>> {
    match r
    case Died(place, j) => Died(place, j)
    case Done(state, j) =>
      var (_, j) :- Commit(j.(live := ReleaseRow(j.live, instance)));
      Done([state], j)
    case Raised(error, j) =>
      var (_, j) :- Commit(j.(live := ReleaseRow(j.live, instance)));
      Raised(error, j)
  }

  function RunClaimed(j: Job, instance: Instance, now: int, p: Policy): JobResult<seq<State>> {
    var (_, j) :- Commit(j.(live := ClaimRow(j.live, instance, now, p.leaseSeconds)));
    var (now, j) := ReadClock(j);
    if j.live.owner != Some(instance) then Done([], Rollback(j))
    else
      var (_, j) :- Commit(j.(live := RenewRow(j.live, instance, now, p.leaseSeconds)));
      Finally(Launch(j, p.coordinator), instance)
  }

  function ReadSysClock(s: Sys): (int, Sys) {
    var env := s.env;
    (env.now, Sys(s.world, if env.advances == [] then env
                           else env.(now := env.now + env.advances[0], advances := env.advances[1..])))
  }

  function ClaimAndRun(s: Sys, p: Policy): (r: SysResult<seq<State>>)
    requires s.world.Indexed()
    ensures r.state.world.paths.Keys == s.world.paths.Keys && r.state.world == s.world.(paths := r.state.world.paths)
  {
    var (now, s) := ReadSysClock(s);
    match FirstCandidate(s.world, s.world.listing, now)
    case None => Done([], s)
    case Some(id) => Lift(s, id, RunClaimed(JobFor(s, id), s.world.instance, now, p))
  }

  function Reconcile(s: Sys, cfg: Config): (r: SysResult<seq<State>>)
    requires s.world.Indexed()
    ensures r.state.world.paths.Keys == s.world.paths.Keys && r.state.world.listing == s.world.listing
  {
    if s.world.reconciled then Done([], s)
    else
      var (results, s) :- ReconcileAll(s, ActiveIds(s.world, s.world.listing), cfg);
      Done(results, s.(world := s.world.(reconciled := true)))
  }

  function Tick(s: Sys, p: Policy): (r: SysResult<seq<State>>)
    requires s.world.Indexed()
    ensures r.state.world.paths.Keys == s.world.paths.Keys && r.state.world.listing == s.world.listing
  {
    var (reconciled, s) :- Reconcile(s, p.coordinator);
    var (_, s) :- DrainFrom(s, 0);
    var (ran, s) :- ClaimAndRun(s, p);
    Done(reconciled + ran, s)
  }

  /******* Runs *******/

  datatype Op =
    | Schedule(id: Id, kind: Kind, parameters: Parameters, target: Target, now: int, duration: int, actor: string)
    | Ask(id: Id, cancel: bool, requester: string, key: string)
    | TickWith(env: Env)
    | Restart

  predicate TargetFree(w: World, target: Target) {
    forall id <- w.paths :: w.Row(id).target == target ==> Terminal(w.Row(id).state)
  }

  predicate Precedes(w: World, id: Id, created: int, other: Id)
    requires other in w.paths
  {
    created < w.Row(other).createdAt || (created == w.Row(other).createdAt && id <= other)
  }

  function Insert(w: World, ids: seq<Id>, id: Id, created: int): (r: seq<Id>)
    requires forall i <- ids :: i in w.paths
    ensures forall i :: i in r <==> i in ids || i == id
  {
    if ids == [] || Precedes(w, id, created, ids[0]) then [id] + ids
    else [ids[0]] + Insert(w, ids[1..], id, created)
  }

  // None when the duration, the id or the target's live experiment refuses the request.
  function ScheduleIn(w: World, op: Op): (r: Option<World>)
    requires op.Schedule? && w.Indexed()
    ensures r.Some? ==> r.value.Indexed()
  {
    var deadline := CalculateExpiry(op.now, op.duration);
    if deadline.None? || op.id in w.paths || !TargetFree(w, op.target) then None
    else
      var row := NewRow(op.kind, op.parameters, op.target, op.now, deadline.value, op.actor);
      Some(w.(paths := w.paths[op.id := Born(Cell(row, Silent))],
              listing := Insert(w, w.listing, op.id, op.now)))
  }

  function Asked(w: World, op: Op): World
    requires op.Ask?
  {
    if op.id !in w.paths || exists r <- w.requests :: r.key == op.key then w
    else w.(requests := w.requests + [Request(op.id, op.cancel, op.requester, op.key, true)])
  }

  // An exception that leaves the tick is swallowed; a dead process is replaced by a new instance.
  function Apply(w: World, op: Op, p: Policy): (w': World)
    requires w.Indexed()
    ensures w'.Indexed()
  {
    match op
    case Schedule(_, _, _, _, _, _, _) => var r := ScheduleIn(w, op); if r.Some? then r.value else w
    case Ask(_, _, _, _) => Asked(w, op)
    case Restart => w.(reconciled := false, instance := w.instance + 1)
    case TickWith(env) =>
      var r := Tick(Sys(w, env), p);
      if r.Died? then r.state.world.(reconciled := false, instance := w.instance + 1) else r.state.world
  }

  // Further operations on a world that is already there.
  function ApplyEach(w: World, ops: seq<Op>, p: Policy): (w': World)
    requires w.Indexed()
    ensures w'.Indexed()
  {
    if ops == [] then w else Apply(ApplyEach(w, ops[..|ops| - 1], p), ops[|ops| - 1], p)
  }

  const EMPTY := World(map[], [], [], false, 0)

  // The world after a sequence of operations by any number of successive supervisor processes.
  function Run(ops: seq<Op>, p: Policy): (w: World)
    ensures w.Indexed()
  {
    if ops == [] then EMPTY else Apply(Run(ops[..|ops| - 1], p), ops[|ops| - 1], p)
  }
}
