/** What the final outcome of an experiment says about how it got there. */
module Outcomes {
  import opened Wrappers
  import opened Lifecycle
  import opened Rows
  import opened Machine
  import opened Evidence
  import opened Protocol
  import opened Invariants
  import opened CoordinatorSpec
  import opened CoordinatorFollows
  import opened CleanupFollows
  import opened Safety
  import opened Cancellation
  import opened SupervisorSpec
  import opened SupervisorFollows
  import Scenarios

  predicate RanToExpiry(audit: seq<Transition>) {
    Mentions(audit, Active) && Mentions(audit, Expired) && !Mentions(audit, CancellationRequested)
  }

  predicate WasCancelled(audit: seq<Transition>) {
    Mentions(audit, Active) && Mentions(audit, CancellationRequested) && !Mentions(audit, Expired)
  }

  // The effect was never confirmed: straight from injecting, or from planned, to the end.
  predicate NeverConfirmed(audit: seq<Transition>) {
    !Mentions(audit, Active) && !Mentions(audit, CancellationRequested) && !Mentions(audit, Expired)
  }

  ghost predicate OriginInv(r: Row) {
    match r.state
    case Planned => NeverConfirmed(r.audit)
    case Preflight => NeverConfirmed(r.audit)
    case Injecting => NeverConfirmed(r.audit)
    case Failed => NeverConfirmed(r.audit)
    case Active => Mentions(r.audit, Active) && !Mentions(r.audit, Expired) && !Mentions(r.audit, CancellationRequested)
    case Expired => RanToExpiry(r.audit)
    case CancellationRequested => WasCancelled(r.audit)
    case _ => RanToExpiry(r.audit) || WasCancelled(r.audit) || NeverConfirmed(r.audit)
  }

  lemma MentionedOnce(r: Row, r': Row, s: State)
    requires Follows(r, r') && s in {Active, Expired, CancellationRequested}
    ensures Mentions(r'.audit, s) <==> Mentions(r.audit, s) || (r.state != r'.state && r'.state == s)
  {
    CountFollows(r, r', s);
    OccurrencesOnRoute(r.state, r'.state, s);
  }

  lemma OriginKept(r: Row, r': Row, log: Log, limit: nat)
    requires OriginInv(r) && CommitAllowed(r, r', log, limit)
    ensures OriginInv(r')
  {
    MentionedOnce(r, r', Active);
    MentionedOnce(r, r', Expired);
    MentionedOnce(r, r', CancellationRequested);
    hide Follows, ContextAllowed, OutcomeAllowed, AttemptsAllowed, ObservationsAllowed, Mentions;
  }

  lemma {:induction false} PathOrigin(p: Path, limit: nat)
    requires ValidPath(p, limit)
    ensures OriginInv(p.cell.row)
  {
    match p
    case Born(c) => NothingMentioned(c.row);
    case Then(q, c) =>
      PathOrigin(q, limit);
      if c.row != q.cell.row { OriginKept(q.cell.row, c.row, q.cell.log, limit); }
  }

  lemma NothingMentioned(r: Row)
    requires r.state == Planned && r.revision == 0 && Consistent(r)
    ensures NeverConfirmed(r.audit)
  {
    assert r.audit[..0] == [];
    assert forall s :: s != Planned ==> Count(r.audit, s) == Count(r.audit[..0], s);
  }

  // passed covers three histories and no others: the experiment was active and expired; or its
  // injection was never confirmed, and what was cleaned up was an uncertain effect; or it was
  // cancelled, and the process died before it could remember that.
  lemma PassedOrigins(p: Path, limit: nat)
    requires ValidPath(p, limit) && p.cell.row.state == Passed
    ensures var audit := p.cell.row.audit; RanToExpiry(audit) || NeverConfirmed(audit) || (WasCancelled(audit) && !Attributed(p))
  {
    PathOrigin(p, limit);
    if Attributed(p) && Mentions(p.cell.row.audit, CancellationRequested) { CancelledNeverPasses(p, limit); }
  }

  // In a run whose processes die only at port calls, the third history does not occur.
  lemma PassedOriginsInRun(ops: seq<Op>, p: Policy, id: Id)
    requires DiesOnlyAtPorts(ops, p) && id in Run(ops, p).paths && Run(ops, p).Row(id).state == Passed
    ensures var audit := Run(ops, p).Row(id).audit;
            RanToExpiry(audit) <==> !NeverConfirmed(audit)
  {
    EveryRunFollows(ops, p);
    PathOrigin(Run(ops, p).paths[id], p.coordinator.Limit());
    CancelledNeverPassesInRun(ops, p, id);
    hide Mentions;
  }

  /******* What the row and its log record *******/

  // Every entry after the first gives a reason that fits its edge.
  ghost predicate JustifiedLog(audit: seq<Transition>) {
    audit != [] && audit[0].reason == Scheduled && forall i :: 1 <= i < |audit| ==> Justified(audit[i])
  }

  lemma JustifiedKept(r: Row, r': Row)
    requires JustifiedLog(r.audit) && Follows(r, r')
    ensures JustifiedLog(r'.audit)
  {
    hide Justified;
    assert r'.audit[0] == r'.audit[..|r.audit|][0];
    forall i | 1 <= i < |r'.audit| ensures Justified(r'.audit[i]) {
      if i < |r.audit| { assert r'.audit[i] == r'.audit[..|r.audit|][i]; }
      else {
        var k := i - |r.audit|;
        assert Route(r.state, r'.state)[k] == r'.audit[|r.audit| + k].to;
      }
    }
  }

  // The log explains itself: each transition carries the reason of its edge, so what the final
  // state rests on can be read from the last entry.
  lemma {:induction false} EveryEntryJustified(p: Path, limit: nat)
    requires ValidPath(p, limit)
    ensures JustifiedLog(p.cell.row.audit)
    ensures p.cell.row.state in {Passed, OperatorAttention} ==>
              p.cell.row.audit[p.cell.row.revision].reason == VerificationEnded(p.cell.row.state == Passed)
  {
    match p
    case Born(c) =>
    case Then(q, c) =>
      EveryEntryJustified(q, limit);
      if c.row != q.cell.row { JustifiedKept(q.cell.row, c.row); }
      PathSound(p, limit);
      if c.row.revision > 0 { assert Justified(c.row.audit[c.row.revision]); }
  }

  // The outcome and the reason for attention beside the state.
  predicate Recorded(r: Row) {
    && r.attention == (if r.state == OperatorAttention then Some(VerificationFailed) else None)
    && match r.state
       case Passed => r.outcome == Some(Final(Passed))
       case OperatorAttention => r.outcome == Some(Final(OperatorAttention))
       case Cancelled => r.outcome in {Some(Final(Cancelled)), None}
       case CleaningUp => r.outcome in {None, Some(CancelledPending)}
       case CleanupFailed => r.outcome in {None, Some(CancelledPending)}
       case Verifying => r.outcome in {None, Some(CancelledPending)}
       case _ => r.outcome == None
  }

  lemma RecordedKept(r: Row, r': Row, log: Log, limit: nat)
    requires Recorded(r) && CommitAllowed(r, r', log, limit)
    ensures Recorded(r')
  {
    hide Follows, ContextAllowed, AttemptsAllowed, ObservationsAllowed;
  }

  // Under any crash the recorded outcome is that of the state: an experiment that has passed says
  // so, attention always has its reason, and nothing else has either.
  lemma {:induction false} OutcomeMatchesState(p: Path, limit: nat)
    requires ValidPath(p, limit)
    ensures Recorded(p.cell.row)
  {
    if p.Then? {
      OutcomeMatchesState(p.before, limit);
      if p.cell.row != p.before.cell.row { RecordedKept(p.before.cell.row, p.cell.row, p.before.cell.log, limit); }
    }
  }

  /******* The second history does occur *******/

  lemma UnconfirmedStep(r: Row, r': Row, log: Log, limit: nat)
    requires PastInjection(r.state) && NeverConfirmed(r.audit) && CommitAllowed(r, r', log, limit)
    ensures PastInjection(r'.state) && NeverConfirmed(r'.audit)
  {
    MentionedOnce(r, r', Active);
    MentionedOnce(r, r', Expired);
    MentionedOnce(r, r', CancellationRequested);
    hide Follows, ContextAllowed, OutcomeAllowed, AttemptsAllowed, ObservationsAllowed, Mentions;
  }

  lemma {:induction false} UnconfirmedStays(p: Path, q: Path, limit: nat)
    requires ValidPath(q, limit) && Extends(p, q) && PastInjection(p.cell.row.state) && NeverConfirmed(p.cell.row.audit)
    ensures PastInjection(q.cell.row.state) && NeverConfirmed(q.cell.row.audit)
  {
    if p != q {
      UnconfirmedStays(p, q.before, limit);
      if q.cell.row != q.before.cell.row { UnconfirmedStep(q.before.cell.row, q.cell.row, q.before.cell.log, limit); }
    }
  }

  function PrepareCost(cfg: Config): nat { if cfg.observed then 5 else 3 }

  lemma PrepareClears(j: Job, cfg: Config, base: Path, baseline: Reading)
    requires At(j, Planned, cfg, base) && Latest(j.Log(), Entered)
    requires ParametersAccepted(j.live.kind, j.live.parameters) && HasPreflight(j.live.kind) && j.env.life >= PrepareCost(cfg)
    requires j.env.control != [] && j.env.control[0] == Reply(baseline) && BaselineOk(j.live.kind, j.live.parameters, baseline)
    requires j.env.gate != [] && j.env.gate[0] == Verdict(true)
    ensures var r := Prepare(j, cfg);
            && r.Done? && r.value == Injecting && At(r.state, Injecting, cfg, base)
            && Cleared(r.state.live.kind, r.state.Log())
            && r.state.env == j.env.(control := j.env.control[1..], gate := j.env.gate[1..], site := r.state.env.site,
                                     life := j.env.life - PrepareCost(cfg))
            && (j.env.site == [] ==> r.state.env.site == [])
            && r.state.live.kind == j.live.kind && r.state.live.parameters == j.live.parameters
            && r.state.live.outcome == j.live.outcome && r.state.live.context == j.live.context
            && r.state.live.attempts == j.live.attempts && r.state.live.expiresAt == j.live.expiresAt
  {
    PrepareOn(j, cfg, base);
    PrepareAnswers(j, cfg, baseline);
    hide Prepare, CommitAllowed, ValidPath, Extends;
  }

  lemma PrepareAnswers(j: Job, cfg: Config, baseline: Reading)
    requires j.live.state == Planned
    requires ParametersAccepted(j.live.kind, j.live.parameters) && HasPreflight(j.live.kind) && j.env.life >= PrepareCost(cfg)
    requires j.env.control != [] && j.env.control[0] == Reply(baseline) && BaselineOk(j.live.kind, j.live.parameters, baseline)
    requires j.env.gate != [] && j.env.gate[0] == Verdict(true)
    ensures var r := Prepare(j, cfg);
            && r.Done? && r.value == Injecting
            && r.state.env == j.env.(control := j.env.control[1..], gate := j.env.gate[1..], site := r.state.env.site,
                                     life := j.env.life - PrepareCost(cfg))
            && (j.env.site == [] ==> r.state.env.site == [])
            && r.state.live.kind == j.live.kind && r.state.live.parameters == j.live.parameters
            && r.state.live.outcome == j.live.outcome && r.state.live.context == j.live.context
            && r.state.live.attempts == j.live.attempts && r.state.live.expiresAt == j.live.expiresAt
  {
    var k := EnterPreflight(j, cfg).state;
    var probed := Scenarios.Preflight(k);
    assert probed.Done? && probed.value && probed.state.live == k.live && probed.state.env.life == j.env.life - 1;
    var checked := AskGate(probed.state);
    assert checked.Done? && checked.value && checked.state.live == k.live && checked.state.env.life == j.env.life - 2;
    var seen := Observe(checked.state, Before, cfg);
    assert seen.Done? && seen.state.live == k.live.(observations := seen.state.live.observations);
    assert seen.state.env.life == j.env.life - PrepareCost(cfg) + 1 && seen.state.env.control == j.env.control[1..];
    hide Scenarios.Preflight, AskGate, Observe;
  }

  lemma InjectUncertain(j: Job, cfg: Config, injected: Reading, seen: Reading)
    requires j.live.state == Injecting && ParametersAccepted(j.live.kind, j.live.parameters) && HasVerifyActive(j.live.kind)
    requires |j.env.control| >= 2 && j.env.control[0] == Reply(injected) && j.env.control[1] == Reply(seen)
    requires InjectionProved(j.live.kind, injected) && !EffectActive(j.live.kind, seen) && j.env.life >= 5
    ensures var r := Inject(j, cfg);
            && r.Done? && r.value == CleaningUp && r.state.live.state == CleaningUp
            && |r.state.live.audit| == |j.live.audit| + 1 && r.state.live.audit[..|j.live.audit|] == j.live.audit
            && r.state.live.audit[|j.live.audit|].to == CleaningUp
            && r.state.live.kind == j.live.kind && r.state.live.outcome == j.live.outcome
            && r.state.live.context == Some(InjectionContext(j.live.kind))
            && r.state.env == j.env.(control := j.env.control[2..], life := j.env.life - 5)
  {
    hide ParametersAccepted, InjectionProved, EffectActive, InjectionContext;
    var proved := Scenarios.Inject(j);
    assert proved.Done? && proved.state.live == j.live && proved.state.env.life == j.env.life - 2;
    var saved := Commit(proved.state.(live := proved.state.live.(context := Some(proved.value))));
    var confirmed := Scenarios.VerifyActive(saved.state);
    assert confirmed.Done? && !confirmed.value && confirmed.state.live == saved.state.live;
    assert TryInject(j, cfg) == Raised(EffectUnverified, confirmed.state);
  }

  lemma UnconfirmedCleansUp(j: Job, cfg: Config, gone: Reading, still: Reading)
    requires At(j, CleaningUp, cfg, j.path) && Owned(j.live.kind, j.live.context) && j.live.outcome == None
    requires NeverConfirmed(j.live.audit) && j.env.life >= 8 && j.env.control == [Reply(gone), Reply(still)]
    requires EffectGone(j.live.kind, gone) && EffectGone(j.live.kind, still)
    ensures var r := CleanupMarked(j, false, cfg);
            r.Done? && r.value == Passed && NeverConfirmed(r.state.live.audit) && At(r.state, Passed, cfg, j.path)
  {
    hide CommitAllowed, ValidPath, Extends, AttemptCleanup, Conclude, EffectGone, NeverConfirmed, Owned;
    AttemptOn(j, cfg, j.path);
    AttemptSucceeds(j, gone);
    var tried := AttemptCleanup(j);
    ConcludeOn(tried.state, false, cfg, j.path);
    ConcludePasses(tried.state, cfg, still);
    UnconfirmedStays(j.path, Conclude(tried.state, false, cfg).state.path, cfg.Limit());
  }

  lemma MovedStaysUnconfirmed(audit: seq<Transition>, audit': seq<Transition>)
    requires NeverConfirmed(audit) && |audit'| == |audit| + 1 && audit'[..|audit|] == audit
    requires audit'[|audit|].to == CleaningUp
    ensures NeverConfirmed(audit')
  {
  }

  // What is known of an experiment with an ownership proof that has passed.
  lemma PassedWasInjected(p: Path, limit: nat)
    requires ValidPath(p, limit) && limit >= 1 && p.cell.row.state == Passed && OwnershipProof(p.cell.row.kind).Some?
    ensures Proofs(p.cell.log) > 0
  {
    PathSafe(p, limit);
  }

  // An effect that was proved when injected but not confirmed afterwards is cleaned up in the same
  // pass, and when that succeeds and verifies the experiment has passed without ever having been
  // active. The clock plays no part: it is so even when the deadline had passed before the pass.
  lemma UncertainInjectionPasses(j: Job, cfg: Config, baseline: Reading, injected: Reading, seen: Reading,
                                 gone: Reading, still: Reading)
    requires At(j, Planned, cfg, j.path) && OwnershipProof(j.live.kind).Some? && j.live.outcome == None
    requires ParametersAccepted(j.live.kind, j.live.parameters) && j.env.life >= 18
    requires j.env.control == [Reply(baseline), Reply(injected), Reply(seen), Reply(gone), Reply(still)]
    requires BaselineOk(j.live.kind, j.live.parameters, baseline) && InjectionProved(j.live.kind, injected)
    requires !EffectActive(j.live.kind, seen) && EffectGone(j.live.kind, gone) && EffectGone(j.live.kind, still)
    requires j.env.gate == [Verdict(true)]
    ensures var r := RunOnce(j, cfg);
            r.Done? && r.value == Passed && NeverConfirmed(r.state.live.audit) && Proofs(r.state.Log()) > 0
  {
    hide CommitAllowed, ValidPath, Extends, Prepare, Inject, CleanupMarked, ParametersAccepted, BaselineOk,
         InjectionProved, EffectActive, EffectGone, Cleared, NeverConfirmed;
    var entered := Note(j, Entered);
    NoteOn(j, Entered, cfg, j.path);
    PrepareClears(entered, cfg, j.path, baseline);
    var prepared := Prepare(entered, cfg).state;
    InjectOn(prepared, cfg, j.path);
    InjectUncertain(prepared, cfg, injected, seen);
    var cleaning := Inject(prepared, cfg).state;
    PathOrigin(prepared.path, cfg.Limit());
    MovedStaysUnconfirmed(prepared.live.audit, cleaning.live.audit);
    assert RunOnce(j, cfg) == CleanupMarked(cleaning, false, cfg);
    ReflexiveAt(cleaning, cfg, j.path);
    UnconfirmedCleansUp(cleaning, cfg, gone, still);
    var r := CleanupMarked(cleaning, false, cfg);
    PathKeepsIdentity(cleaning.path, r.state.path, cfg.Limit());
    PassedWasInjected(r.state.path, cfg.Limit());
  }
}
