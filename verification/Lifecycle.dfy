/** The optional value used wherever the source has a nullable column or `| None`. */
module Wrappers {
  datatype Option<+T> = None | Some(value: T)
}

/** The lifecycle graph: the only edges an experiment may ever take. */
module Lifecycle {
  import opened Wrappers

  datatype State =
    | Planned | Preflight | Injecting | Active | CancellationRequested | Expired | CleaningUp
    | Verifying | Passed | Cancelled | Failed | CleanupFailed | OperatorAttention

  const HARD_MAX_DURATION_SECONDS := 3600

  function AllowedTargets(from: State): set<State> {
    match from
    case Planned => {Preflight, Cancelled}
    case Preflight => {Injecting, Failed, Cancelled}
    case Injecting => {Active, CleaningUp}
    case Active => {Expired, CancellationRequested, CleaningUp}
    case CancellationRequested => {CleaningUp}
    case Expired => {CleaningUp}
    case CleaningUp => {Verifying, CleanupFailed}
    case CleanupFailed => {CleaningUp, OperatorAttention}
    case Verifying => {Passed, Cancelled, Failed, OperatorAttention}
    case _ => {}
  }

  predicate Allowed(from: State, target: State) {
    target in AllowedTargets(from)
  }

  predicate Terminal(s: State) {
    s in {Passed, Cancelled, Failed, OperatorAttention}
  }

  // The rows the claim query selects.
  predicate Claimable(s: State) {
    s in {Planned, Preflight, Active, Expired, CancellationRequested, CleaningUp, CleanupFailed}
  }

  // The rows the coordinator takes into cleanup, whether claimed or found after a restart.
  predicate NeedsCleanup(s: State) {
    s in {Expired, CancellationRequested, CleaningUp, CleanupFailed}
  }

  // The deadline of an experiment; None is the safety-limit error.
  function CalculateExpiry(createdAt: int, durationSeconds: int): (deadline: Option<int>)
    ensures deadline.Some? ==> deadline.value == createdAt + durationSeconds
    ensures deadline.Some? ==> createdAt < deadline.value <= createdAt + HARD_MAX_DURATION_SECONDS
    ensures deadline.None? <==> durationSeconds < 1 || HARD_MAX_DURATION_SECONDS < durationSeconds
  {
    if durationSeconds < 1 || durationSeconds > HARD_MAX_DURATION_SECONDS then None
    else Some(createdAt + durationSeconds)
  }

  // The states called terminal are exactly those the graph never leaves.
  lemma TerminalMeansNoExit(s: State)
    ensures Terminal(s) <==> forall t :: !Allowed(s, t)
  {
    if !Terminal(s) {
      var exit :| exit in AllowedTargets(s);
      assert Allowed(s, exit);
    }
  }
}
