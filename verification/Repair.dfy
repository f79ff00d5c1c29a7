/** The coordinator with its give-up step repaired: when the attempts are used up it goes through
    cleanup_failed, the only state from which the graph reaches operator_attention. */
module Repair {
  import opened Wrappers
  import opened Lifecycle
  import opened Rows
  import opened Machine
  import opened Protocol
  import opened Invariants
  import opened CoordinatorSpec
  import opened CoordinatorFollows
  import opened CleanupFollows
  import opened Convergence

  function GiveUpRepaired(j: Job, cfg: Config): JobResult<State> {
    var (_, j) :- Transit(j, CleanupFailed, CleanupRefused, cfg.actor);
    var (_, j) :- Transit(j, OperatorAttention, CleanupRefused, cfg.actor);
    var (_, j) :- Commit(j.(live := j.live.(attention := Some(AttemptsExhausted))));
    Done(OperatorAttention, j)
  }

  function CleanupMarkedRepaired(j: Job, cancelled: bool, cfg: Config): JobResult<State> {
    var ((number, ok), j) :- AttemptCleanup(j);
    if ok then Conclude(j, cancelled, cfg)
    else if number >= cfg.Limit() then GiveUpRepaired(j, cfg)
    else TransitAndCommit(j, CleanupFailed, CleanupRefused, cfg.actor)
  }

  // Where the coordinator as it is written raises at the end of its attempts, the repaired one
  // goes on.
  function Patched(r: JobResult<State>, cfg: Config): JobResult<State> {
    if r.Raised? && r.error == TransitionNotAllowed && r.state.live.state == CleaningUp then GiveUpRepaired(r.state, cfg)
    else r
  }

  lemma PatchIsRepair(j: Job, cancelled: bool, cfg: Config)
    requires At(j, CleaningUp, cfg, j.path) && (cancelled <==> j.live.outcome == Some(CancelledPending))
    ensures Patched(CleanupMarked(j, cancelled, cfg), cfg) == CleanupMarkedRepaired(j, cancelled, cfg)
  {
    hide CommitAllowed, ValidPath, Extends, AttemptCleanup, Conclude, GiveUpRepaired;
    AttemptOn(j, cfg, j.path);
    var tried := AttemptCleanup(j);
    if tried.Done? {
      if tried.value.1 {
        ConcludeOn(tried.state, cancelled, cfg, j.path);
      } else if tried.value.0 < cfg.Limit() {
        PathSound(j.path, cfg.Limit());
        StepOn(tried.state, CleanupFailed, CleanupRefused, cfg.actor, cfg, j.path);
      }
    }
  }

  // One pass of the repaired coordinator.
  function RepairedPass(j: Job, cfg: Config): JobResult<State> { Patched(RunOnce(j, cfg), cfg) }

  // The repaired step never raises: it leaves the row for an operator, says why, and the audit
  // log still replays to the row.
  lemma GivingUpEnds(j: Job, cfg: Config)
    requires At(j, CleaningUp, cfg, j.path)
    ensures var r := GiveUpRepaired(j, cfg);
            && !r.Raised? && (r.Died? ==> r.state.path == j.path)
            && (r.Done? ==>
                  var row := r.state.path.cell.row;
                  && row.state == OperatorAttention && row.attention == Some(AttemptsExhausted)
                  && row.attempts == j.live.attempts && Consistent(row)
                  && Replay(row.audit) == Some((OperatorAttention, row.revision)))
  {
    hide ValidPath, Extends, Consistent, Replay;
    PathSound(j.path, cfg.Limit());
    var mid := Transit(j, CleanupFailed, CleanupRefused, cfg.actor).state;
    SwapKeepsLog(CleaningUp, j.live, CleanupFailed, CleanupRefused, cfg.actor, j.live.revision);
    var end := Transit(mid, OperatorAttention, CleanupRefused, cfg.actor).state;
    SwapKeepsLog(CleanupFailed, mid.live, OperatorAttention, CleanupRefused, cfg.actor, mid.live.revision);
    var row := end.live.(attention := Some(AttemptsExhausted));
    assert Consistent(row) by { SameLog(end.live, row); }
    ReplayYieldsRow(row);
  }

  lemma SameLog(r: Row, r': Row)
    requires Consistent(r) && r' == r.(attention := r'.attention)
    ensures Consistent(r')
  {
  }

  /******* Convergence without a residue *******/

  ghost predicate Ended(path: Path, done: nat, cfg: Config) {
    var r := path.cell.row;
    || (Terminal(r.state) && Consistent(r))
    || (ValidPath(path, cfg.Limit()) && r.state == CleanupFailed && done <= |r.attempts| < cfg.Limit())
  }

  lemma RepairedProgress(path: Path, env: Env, done: nat, cfg: Config)
    requires ValidPath(path, cfg.Limit()) && Claimable(path.cell.row.state)
    requires env.now >= path.cell.row.expiresAt && PreflightReturns(path.cell.row, env)
    requires done == 0 || |path.cell.row.attempts| >= done
    ensures var r := RepairedPass(Job(path, path.cell.row, env), cfg); r.Died? || Ended(r.state.path, done + 1, cfg)
  {
    hide CommitAllowed, ValidPath, Extends, RunOnce, GiveUpRepaired, Consistent;
    JobOnPath(path, env, cfg);
    var j := Job(path, path.cell.row, env);
    PassProgress(j, cfg);
    var r := RunOnce(j, cfg);
    if !r.Died? {
      PathSound(r.state.path, cfg.Limit());
      if r.Raised? {
        ExhaustedAt(r.state, cfg);
        GivingUpEnds(r.state, cfg);
      }
    }
  }

  lemma ExhaustedAt(j: Job, cfg: Config)
    requires j.Clean() && On(j, cfg, j.path) && Exhausted(j.live, cfg.Limit())
    ensures At(j, CleaningUp, cfg, j.path)
  {
  }

  function RepairedPasses(path: Path, envs: seq<Env>, cfg: Config): Option<Path> {
    if envs == [] then Some(path)
    else
      var earlier := RepairedPasses(path, envs[..|envs| - 1], cfg);
      if earlier.None? || Terminal(earlier.value.cell.row.state) then earlier
      else
        var r := RepairedPass(Job(earlier.value, earlier.value.cell.row, envs[|envs| - 1]), cfg);
        if r.Died? then None else Some(r.state.path)
  }

  lemma {:induction false} RepairedPassesEnd(path: Path, envs: seq<Env>, cfg: Config)
    requires ValidPath(path, cfg.Limit()) && Claimable(path.cell.row.state) && envs != []
    requires forall env <- envs :: env.now >= path.cell.row.expiresAt
    requires PreflightReturns(path.cell.row, envs[0])
    ensures var q := RepairedPasses(path, envs, cfg);
            q.Some? ==> Ended(q.value, |envs|, cfg) && SameExperiment(path.cell.row, q.value.cell.row)
  {
    hide CommitAllowed, ValidPath, RepairedPass, Consistent;
    var n := |envs| - 1;
    if n == 0 {
      assert RepairedPasses(path, envs[..0], cfg) == Some(path);
      RepairedProgress(path, envs[0], 0, cfg);
      RepairedKeepsIdentity(path, envs[0], cfg);
    } else {
      RepairedPassesEnd(path, envs[..n], cfg);
      var earlier := RepairedPasses(path, envs[..n], cfg);
      if earlier.Some? && !Terminal(earlier.value.cell.row.state) {
        RepairedProgress(earlier.value, envs[n], n, cfg);
        RepairedKeepsIdentity(earlier.value, envs[n], cfg);
      }
    }
  }

  lemma RepairedKeepsIdentity(path: Path, env: Env, cfg: Config)
    requires ValidPath(path, cfg.Limit()) && Claimable(path.cell.row.state)
    ensures var r := RepairedPass(Job(path, path.cell.row, env), cfg); SameExperiment(path.cell.row, r.state.path.cell.row)
  {
    hide CommitAllowed, ValidPath, RunOnce;
    JobOnPath(path, env, cfg);
    var j := Job(path, path.cell.row, env);
    RunOnceOn(j, cfg, path);
    PathKeepsIdentity(path, RunOnce(j, cfg).state.path, cfg.Limit());
  }

  // With the repair the residue is gone: the same number of passes always ends in a terminal
  // state, with an audit log that replays to it.
  lemma RepairedConverges(path: Path, envs: seq<Env>, cfg: Config)
    requires ValidPath(path, cfg.Limit()) && Claimable(path.cell.row.state)
    requires |envs| >= cfg.Limit() && forall env <- envs :: env.now >= path.cell.row.expiresAt
    requires PreflightReturns(path.cell.row, envs[0])
    ensures var q := RepairedPasses(path, envs, cfg);
            q.Some? ==> Terminal(q.value.cell.row.state) && Replay(q.value.cell.row.audit) ==
                        Some((q.value.cell.row.state, q.value.cell.row.revision))
  {
    hide ValidPath, Consistent, Replay;
    RepairedPassesEnd(path, envs, cfg);
    var q := RepairedPasses(path, envs, cfg);
    if q.Some? { ReplayYieldsRow(q.value.cell.row); }
  }
}
