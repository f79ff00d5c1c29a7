/** One experiment as a process works on it: what is durable, what is pending in the session, and
    the answers of everything outside the process.

    A process may die before or after any port call and before or after any commit: `life` counts
    the calls and commits it still lives to make. */
module Machine {
  import opened Wrappers
  import opened Lifecycle
  import opened Rows

  // The port calls that matter to the safety of a target, in the order they were made.
  datatype Event =
    | Entered                      // the coordinator starts one pass over the row
    | Probed(ok: bool)             // the scenario's own preflight answered
    | Checked(ok: bool)            // the target preflight answered
    | InjectCalled
    | InjectProved(reading: Reading) // inject returned, its effect verified by this answer
    | CleanupCalled
    | CleanupAnswered(ok: bool)    // false also when it raised
    | VerifyCalled
    | VerifyAnswered(ok: bool)
    | Restored                     // a restoring call reached the control port

  // Newest event first.
  datatype Log = Silent | Logged(earlier: Log, event: Event)

  // Everything about an experiment that survives the process.
  datatype Cell = Cell(row: Row, log: Log)

  // Every durable condition the experiment has been in, newest first.
  datatype Path = Born(cell: Cell) | Then(before: Path, cell: Cell)

  datatype Reading =
    Reading(ok: bool, installed: bool, active: bool, changed: bool, owned: bool, storageOwned: bool,
            cpus: nat, freeBytes: nat, reserveBytes: nat)

  datatype ControlAnswer = Reply(reading: Reading) | Fault
  datatype GateAnswer = Verdict(ok: bool) | GateFault

  datatype Env =
    Env(control: seq<ControlAnswer>, gate: seq<GateAnswer>, site: seq<Sight>,
        now: int, advances: seq<nat>, life: nat)

  datatype Error =
    | TransitionNotAllowed | RevisionConflict | InvalidParameters | PortRaised | InjectionUnverified
    | EffectUnverified | ScenarioUnavailable | NotFound

  datatype Place = AtPort | AtCommit

  // How a computation over a state S ends: with a value, with an exception, or with the process.
  datatype Result<+T, +S> =
    | Done(value: T, state: S)
    | Raised(error: Error, state: S)
    | Died(place: Place, state: S)
  {
    predicate IsFailure() { !Done? }

    function PropagateFailure<U>(): Result<U, S>
      requires IsFailure()
    {
      if Raised? then Raised(error, state) else Died(place, state)
    }

    function Extract(): (T, S)
      requires Done?
    {
      (value, state)
    }
  }

  datatype Job = Job(path: Path, live: Row, env: Env)
  {
    function Saved(): Row { path.cell.row }

    function Log(): Log { path.cell.log }

    predicate Clean() { live == Saved() }
  }

  type JobResult<+T> = Result<T, Job>

  function Note(j: Job, e: Event): Job {
    j.(path := Then(j.path, Cell(j.Saved(), Logged(j.Log(), e))))
  }

  function Spend(j: Job, place: Place): JobResult<()> {
    if j.env.life == 0 then Died(place, j) else Done((), j.(env := j.env.(life := j.env.life - 1)))
  }

  function Extended(p: Path, live: Row): Path {
    if live == p.cell.row then p else Then(p, Cell(live, p.cell.log))
  }

  function Commit(j: Job): JobResult<()> {
    var (_, j) :- Spend(j, AtCommit);
    Done((), j.(path := Extended(j.path, j.live)))
  }

  function Rollback(j: Job): Job { j.(live := j.Saved()) }

  function ReadClock(j: Job): (int, Job) {
    var env := j.env;
    (env.now, j.(env := if env.advances == [] then env
                        else env.(now := env.now + env.advances[0], advances := env.advances[1..])))
  }

  // One call on the control port: the process may die while it waits, the port may raise.
  function AskControl(j: Job): JobResult<Reading> {
    var (_, j) :- Spend(j, AtPort);
    if j.env.control == [] then Raised(PortRaised, j)
    else
      var answer, j := j.env.control[0], j.(env := j.env.(control := j.env.control[1..]));
      if answer.Fault? then Raised(PortRaised, j) else Done(answer.reading, j)
  }

  function AskGate(j: Job): JobResult<bool> {
    var (_, j) :- Spend(j, AtPort);
    if j.env.gate == [] then Raised(PortRaised, j)
    else
      var answer, j := j.env.gate[0], j.(env := j.env.(gate := j.env.gate[1..]));
      if answer.GateFault? then Raised(PortRaised, j) else Done(answer.ok, Note(j, Checked(answer.ok)))
  }

  function AskSite(j: Job): JobResult<Sight> {
    var (_, j) :- Spend(j, AtPort);
    if j.env.site == [] then Done(Unseen("observation_failed"), j)
    else Done(j.env.site[0], j.(env := j.env.(site := j.env.site[1..])))
  }

  /******* Repository operations on the pending row *******/

  function Transit(j: Job, target: State, reason: Reason, actor: string): JobResult<()> {
    match CasTransition(j.live.state, j.live, target, reason, actor, j.live.revision)
    case Moved(row) => Done((), j.(live := row))
    case Refused => Raised(TransitionNotAllowed, j)
    case Stale => Raised(RevisionConflict, j)
  }

  // An attempt number already in the table undoes the session's pending work.
  function RecordAttempt(j: Job, attempt: Attempt): Job {
    if exists a <- j.live.attempts :: a.number == attempt.number then Rollback(j)
    else j.(live := j.live.(attempts := j.live.attempts + [attempt]))
  }
}
