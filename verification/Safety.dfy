/** Safety over every path: what holds of an experiment however its passes, retries, restarts and
    cancellations interleave. */
module Safety {
  import opened Wrappers
  import opened Lifecycle
  import opened Rows
  import opened Machine
  import opened Evidence
  import opened Protocol
  import opened Invariants

  /******* Reading the log of port calls *******/

  function Calls(log: Log, e: Event): nat {
    match log
    case Silent => 0
    case Logged(earlier, event) => Calls(earlier, e) + if event == e then 1 else 0
  }

  // How often an injection was proved.
  function Proofs(log: Log): nat {
    match log
    case Silent => 0
    case Logged(earlier, event) => Proofs(earlier) + if event.InjectProved? then 1 else 0
  }

  predicate Injected(log: Log) { Calls(log, InjectCalled) > 0 }

  // Every injection directly follows the two preflights that passed in the same pass.
  predicate InjectionsGated(kind: Kind, log: Log) {
    log.Logged? ==> InjectionsGated(kind, log.earlier) && (log.event == InjectCalled ==> Cleared(kind, log.earlier))
  }

  // Every restoring call follows an injection that was proved.
  predicate RestoresProven(log: Log) {
    log.Logged? ==> RestoresProven(log.earlier) && (log.event == Restored ==> Proofs(log.earlier) > 0)
  }

  // Since the last injection a cleanup call returned ok.
  predicate CleanedSince(log: Log) {
    log.Logged? && log.event != InjectCalled && (log.event == CleanupAnswered(true) || CleanedSince(log.earlier))
  }

  // ... and after it a verification returned ok.
  predicate VerifiedSince(log: Log) {
    && log.Logged? && log.event != InjectCalled
    && ((log.event == VerifyAnswered(true) && CleanedSince(log.earlier)) || VerifiedSince(log.earlier))
  }

  /******* The invariants *******/

  predicate Before(s: State) { s in {Planned, State.Preflight} }

  ghost predicate InjectionInv(c: Cell) {
    && InjectionsGated(c.row.kind, c.log)
    && Calls(c.log, InjectCalled) <= 1
    && (Injected(c.log) ==> !Before(c.row.state) && c.log.event != Checked(true))
    && (c.row.state == Failed ==> !Injected(c.log))
  }

  // Past a successful cleanup, the verdict still awaited or given.
  predicate PastCleanup(log: Log) {
    log.Logged? && (log.event in {CleanupAnswered(true), VerifyCalled, Restored} || log.event.VerifyAnswered?)
  }

  ghost predicate OwnershipInv(c: Cell) {
    && RestoresProven(c.log)
    && (PastCleanup(c.log) ==> Owned(c.row.kind, c.row.context))
    && (OwnershipProof(c.row.kind).Some? && Owned(c.row.kind, c.row.context) ==> Proofs(c.log) > 0)
    && (c.row.state in {Active, Expired, CancellationRequested} ==> c.row.context.Some?)
    && (c.row.context.Some? ==> Owned(c.row.kind, c.row.context))
  }

  predicate AwaitingVerdict(log: Log) {
    log.Logged? && (log.event == VerifyCalled || (log.event == Restored && Latest(log.earlier, VerifyCalled)))
  }

  ghost predicate VerdictInv(c: Cell) {
    && (AwaitingVerdict(c.log) ==> CleanedSince(c.log))
    && (Latest(c.log, VerifyAnswered(true)) ==> VerifiedSince(c.log))
    && (c.row.state == Passed ==> Latest(c.log, VerifyAnswered(true)))
    && (c.row.state == Cancelled ==> Latest(c.log, VerifyAnswered(true)) || !Injected(c.log))
    && (c.row.state == OperatorAttention ==> Latest(c.log, VerifyAnswered(false)))
    && (c.row.state == Verifying ==> c.log.Logged? && c.log.event.VerifyAnswered?)
  }

  function Rank(s: State): nat {
    match s
    case Planned => 0
    case Preflight => 1
    case Injecting => 2
    case Active => 3
    case Expired => 4
    case CancellationRequested => 4
    case CleaningUp => 5
    case CleanupFailed => 4
    case Verifying => 6
    case _ => 7
  }

  ghost predicate RetryInv(c: Cell, limit: nat) {
    && Count(c.row.audit, CleanupFailed) < limit
    && c.row.revision <= Rank(c.row.state) + 2 * Count(c.row.audit, CleanupFailed)
  }

  ghost predicate Safe(c: Cell, limit: nat) {
    && Sound(c) && InjectionInv(c) && OwnershipInv(c) && VerdictInv(c) && RetryInv(c, limit)
  }

  /******* Every step keeps them *******/

  lemma InjectionKept(c: Cell, c': Cell, limit: nat)
    requires InjectionInv(c) && Step(c, c', limit)
    ensures InjectionInv(c')
  {
    hide Follows;
  }

  lemma OwnershipKept(c: Cell, c': Cell, limit: nat)
    requires OwnershipInv(c) && Step(c, c', limit)
    ensures OwnershipInv(c')
  {
    hide Follows;
  }

  lemma VerdictKept(c: Cell, c': Cell, limit: nat)
    requires VerdictInv(c) && InjectionInv(c) && Step(c, c', limit)
    ensures VerdictInv(c')
  {
    hide Follows;
    if c'.log != c.log {
      match c'.log.event
      case VerifyCalled => assert CleanedSince(c.log);
      case Restored => assert Latest(c.log, VerifyCalled) ==> AwaitingVerdict(c.log);
      case VerifyAnswered(_) => assert AwaitingVerdict(c.log);
      case _ =>
    }
  }

  // Every move climbs the ranks, except into cleanup_failed, which is counted instead.
  lemma MovesClimb(r: Row, to: State, log: Log, limit: nat)
    requires MoveAllowed(r, to, log, limit) && to != r.state
    ensures Rank(r.state) + |Route(r.state, to)| <= Rank(to) + if to == CleanupFailed then 2 else 0
    ensures Occurrences(Route(r.state, to), CleanupFailed) == if to == CleanupFailed then 1 else 0
  {
    OccurrencesOnRoute(r.state, to, CleanupFailed);
  }

  lemma RetryKept(c: Cell, c': Cell, limit: nat)
    requires RetryInv(c, limit) && Sound(c) && Sound(c') && Step(c, c', limit)
    ensures RetryInv(c', limit)
  {
    hide Route, Consistent;
    if c.row != c'.row {
      CountFollows(c.row, c'.row, CleanupFailed);
      assert |c'.row.audit| == |c.row.audit| + |Route(c.row.state, c'.row.state)|;
      assert c'.row.revision == c.row.revision + |Route(c.row.state, c'.row.state)| by { Revisions(c.row); Revisions(c'.row); }
      if c.row.state != c'.row.state {
        MovesClimb(c.row, c'.row.state, c.log, limit);
      } else {
        OccurrencesOnRoute(c.row.state, c'.row.state, CleanupFailed);
        assert Route(c.row.state, c.row.state) == [] by { StayPut(c.row.state); }
      }
    }
  }

  lemma Revisions(r: Row)
    requires Consistent(r)
    ensures |r.audit| == r.revision + 1
  {
  }

  lemma StayPut(s: State)
    ensures Route(s, s) == []
  {
  }

  lemma {:induction false} PathSafe(p: Path, limit: nat)
    requires ValidPath(p, limit) && limit >= 1
    ensures Safe(p.cell, limit)
  {
    match p
    case Born(c) => PathSound(p, limit); assert c.row.audit[..0] == [];
    case Then(q, c) =>
      PathSafe(q, limit);
      StepKeepsSound(q.cell, c, limit);
      InjectionKept(q.cell, c, limit);
      OwnershipKept(q.cell, c, limit);
      VerdictKept(q.cell, c, limit);
      RetryKept(q.cell, c, limit);
  }

  /******* What this says of a whole run *******/

  // inject is called at most once in the life of an experiment, and only straight after the
  // scenario's own preflight and the target preflight passed in the same pass.
  lemma {:induction false} AtMostOnceGatedInjection(p: Path, limit: nat)
    requires ValidPath(p, limit) && limit >= 1
    ensures Calls(p.cell.log, InjectCalled) <= 1 && InjectionsGated(p.cell.row.kind, p.cell.log)
  {
    PathSafe(p, limit);
  }

  // Once inject was called, no terminal state is reached without saying so: passed and cancelled
  // need a later cleanup that answered ok and a still later verification that answered ok, and
  // failed is out of the question.
  lemma {:induction false} NoFalseSuccess(p: Path, limit: nat)
    requires ValidPath(p, limit) && limit >= 1 && Injected(p.cell.log) && Terminal(p.cell.row.state)
    ensures p.cell.row.state in {Passed, Cancelled, OperatorAttention}
    ensures p.cell.row.state in {Passed, Cancelled} ==> VerifiedSince(p.cell.log)
  {
    PathSafe(p, limit);
  }

  // The only way to operator attention is a verification that did not succeed; exhausted cleanup
  // attempts never get there.
  lemma {:induction false} AttentionMeansFailedVerification(p: Path, limit: nat)
    requires ValidPath(p, limit) && limit >= 1 && p.cell.row.state == OperatorAttention
    ensures Calls(p.cell.log, VerifyAnswered(false)) > 0
  {
    PathSafe(p, limit);
  }

  // apache_start, CPU stop and disk stop reach the target only after the injection proved its
  // effect, and only while the proof is in the durable cleanup context.
  lemma {:induction false} OnlyProvenEffectsUndone(p: Path, q: Path, limit: nat)
    requires ValidPath(q, limit) && limit >= 1 && Extends(p, q)
    ensures RestoresProven(q.cell.log)
    ensures p.Then? && p.cell.log == Logged(p.before.cell.log, Restored) ==>
              var row := p.before.cell.row;
              OwnershipProof(row.kind).Some? && row.context.Some? && OwnershipProof(row.kind).value in row.context.value
  {
    PathSafe(q, limit);
    PrefixValid(p, q, limit);
    if p.Then? && p.cell.log == Logged(p.before.cell.log, Restored) {
      LogGrows(p.before.cell.log, Restored);
    }
  }

  // The answer shows the effect as the agent's own doing.
  predicate OwnDoing(kind: Kind, r: Reading) {
    && (kind == ApacheStop ==> !r.active && r.changed)
    && (kind == CpuPressure ==> r.active && r.owned)
    && (kind == DiskPressure ==> r.owned && r.active)
  }

  // Every proof answers an inject call with such an answer.
  predicate ProofsShown(kind: Kind, log: Log) {
    log.Logged? ==>
      && ProofsShown(kind, log.earlier)
      && (log.event.InjectProved? ==> OwnDoing(kind, log.event.reading) && Latest(log.earlier, InjectCalled))
  }

  // So what counts as proved, in any history, is what an answer of the target showed.
  lemma {:induction false} EveryProofShown(p: Path, limit: nat)
    requires ValidPath(p, limit)
    ensures ProofsShown(p.cell.row.kind, p.cell.log)
  {
    hide Follows;
    if p.Then? { EveryProofShown(p.before, limit); }
  }

  function Length(log: Log): nat { if log.Silent? then 0 else Length(log.earlier) + 1 }

  lemma LogGrows(log: Log, e: Event)
    ensures Logged(log, e) != log
  {
    assert Length(Logged(log, e)) == Length(log) + 1;
  }

  lemma {:induction false} PrefixValid(p: Path, q: Path, limit: nat)
    requires ValidPath(q, limit) && Extends(p, q)
    ensures ValidPath(p, limit)
  {
    if p != q { PrefixValid(p, q.before, limit); }
  }

  // Write-ahead: at every call the state that explains it was already durable.
  lemma {:induction false} WriteAheadIntent(p: Path, q: Path, e: Event, limit: nat)
    requires ValidPath(q, limit) && Extends(p, q)
    requires p.Then? && p.cell.log == Logged(p.before.cell.log, e)
    ensures e == InjectCalled ==> p.before.cell.row.state == Injecting
    ensures e in {CleanupCalled, VerifyCalled, Restored} ==> p.before.cell.row.state == CleaningUp
  {
    PrefixValid(p, q, limit);
    LogGrows(p.before.cell.log, e);
  }

  // The same, said of a whole history.
  ghost predicate WrittenAhead(p: Path) {
    p.Then? ==>
      && WrittenAhead(p.before)
      && (p.cell.log.Logged? && p.cell.log.earlier == p.before.cell.log ==>
            && (p.cell.log.event == InjectCalled ==> p.before.cell.row.state == Injecting)
            && (p.cell.log.event in {CleanupCalled, VerifyCalled, Restored} ==> p.before.cell.row.state == CleaningUp))
  }

  lemma {:induction false} HistoryWrittenAhead(p: Path, limit: nat)
    requires ValidPath(p, limit)
    ensures WrittenAhead(p)
  {
    if p.Then? {
      HistoryWrittenAhead(p.before, limit);
      if p.cell.log.Logged? && p.cell.log.earlier == p.before.cell.log { WriteAheadIntent(p, p, p.cell.log.event, limit); }
    }
  }

  // An effect that counts as active, expired or being cancelled can be cleaned up: its cleanup
  // context is durable, with the ownership proof of its scenario.
  lemma {:induction false} ActiveHasContext(p: Path, limit: nat)
    requires ValidPath(p, limit) && limit >= 1
    requires p.cell.row.state in {Active, Expired, CancellationRequested}
    ensures p.cell.row.context.Some? && Owned(p.cell.row.kind, p.cell.row.context)
  {
    PathSafe(p, limit);
  }

  // At most limit-1 moves into cleanup_failed, and a revision of at most 2*limit+5.
  lemma {:induction false} BoundedLifecycle(p: Path, limit: nat)
    requires ValidPath(p, limit) && limit >= 1
    ensures Count(p.cell.row.audit, CleanupFailed) <= limit - 1
    ensures p.cell.row.revision <= 2 * limit + 5
  {
    PathSafe(p, limit);
  }

  // In every durable condition the audit log replays to the row.
  lemma {:induction false} AuditRefinesRow(p: Path, limit: nat)
    requires ValidPath(p, limit)
    ensures Consistent(p.cell.row) && Replay(p.cell.row.audit) == Some((p.cell.row.state, p.cell.row.revision))
  {
    PathSound(p, limit);
    ReplayYieldsRow(p.cell.row);
  }

  /******* A lost injection *******/

  // inject was called, the row has moved on, and no cleanup context was ever saved.
  ghost predicate Lost(c: Cell) {
    && OwnershipProof(c.row.kind).Some? && Injected(c.log)
    && c.row.context.None? && c.row.state != Injecting
  }

  lemma LostKept(c: Cell, c': Cell, limit: nat)
    requires Lost(c) && Step(c, c', limit) && InjectionInv(c) && OwnershipInv(c) && VerdictInv(c)
    ensures Lost(c')
  {
    hide Follows;
  }

  // It is never verified, passed or cancelled, for any number of retries and restarts.
  lemma {:induction false} LostNeverLooksClean(p: Path, q: Path, limit: nat)
    requires ValidPath(q, limit) && limit >= 1 && Extends(p, q) && Lost(p.cell)
    ensures Lost(q.cell) && q.cell.row.state !in {Verifying, Passed, Cancelled}
  {
    PathSafe(q, limit);
    if p != q {
      LostNeverLooksClean(p, q.before, limit);
      PathSafe(q.before, limit);
      LostKept(q.before.cell, q.cell, limit);
    }
    VerdictNeedsContext(q.cell, limit);
  }

  lemma VerdictNeedsContext(c: Cell, limit: nat)
    requires Safe(c, limit) && Lost(c)
    ensures c.row.state !in {Verifying, Passed, Cancelled}
  {
  }

  /******* Past the injection *******/

  predicate PastInjection(s: State) { s in {CleaningUp, CleanupFailed, Verifying, Passed, Cancelled, OperatorAttention} }

  lemma PastStep(c: Cell, c': Cell, limit: nat)
    requires Step(c, c', limit) && PastInjection(c.row.state)
    ensures PastInjection(c'.row.state)
  {
    hide Follows, ContextAllowed, OutcomeAllowed, AttemptsAllowed, ObservationsAllowed, EventAllowed;
  }

  lemma {:induction false} PastStays(p: Path, q: Path, limit: nat)
    requires ValidPath(q, limit) && Extends(p, q) && PastInjection(p.cell.row.state)
    ensures PastInjection(q.cell.row.state)
  {
    if p != q {
      PastStays(p, q.before, limit);
      PastStep(q.before.cell, q.cell, limit);
    }
  }

  /******* Terminal states *******/

  // No path leaves a terminal state, and nothing is called any more.
  lemma {:induction false} TerminalIsFinal(p: Path, q: Path, limit: nat)
    requires ValidPath(q, limit) && Extends(p, q) && Terminal(p.cell.row.state)
    ensures q.cell.row.state == p.cell.row.state && q.cell.log == p.cell.log
    ensures q.cell.row.audit == p.cell.row.audit
  {
    if p != q {
      TerminalIsFinal(p, q.before, limit);
      TerminalStep(q.before.cell, q.cell, limit);
    }
  }

  lemma TerminalStep(c: Cell, c': Cell, limit: nat)
    requires Step(c, c', limit) && Terminal(c.row.state)
    ensures c'.row.state == c.row.state && c'.log == c.log && c'.row.audit == c.row.audit
  {
    if c'.row != c.row { assert c'.row.audit[..|c.row.audit|] == c.row.audit; }
  }
}
