/** What the observer said is what the observations say: every answer once, in order, under the phase
    it was asked in, in every pass of the coordinator. */
module Sightings {
  import opened Wrappers
  import opened Lifecycle
  import opened Rows
  import opened Machine
  import opened Evidence
  import opened Protocol
  import opened Invariants
  import opened CoordinatorSpec
  import opened CoordinatorFollows
  import opened CleanupFollows
  import opened Convergence
  import Scenarios

  // The observer's i-th answer; when it has none, the failure recorded in its place.
  function Answer(site: seq<Sight>, i: nat): Sight {
    if i < |site| then site[i] else Unseen("observation_failed")
  }

  function Unheard(site: seq<Sight>, asked: nat): seq<Sight> {
    if asked <= |site| then site[asked..] else []
  }

  // The earlier observations, and then one for each phase with the observer's next answer.
  predicate Tells(site: seq<Sight>, before: seq<Observation>, phases: seq<Phase>, after: seq<Observation>) {
    && |after| == |before| + |phases| && after[..|before|] == before
    && forall i :: 0 <= i < |phases| ==> after[|before| + i].phase == phases[i] && after[|before| + i].sight == Answer(site, i)
  }

  // Some phases, in a pass that was cut short.
  ghost predicate Told(site: seq<Sight>, before: seq<Observation>, after: seq<Observation>) {
    exists phases :: Tells(site, before, phases, after)
  }

  predicate Level(j: Job) { j.live.observations == j.Saved().observations }

  predicate Recounts(j: Job, site: seq<Sight>, before: seq<Observation>, phases: seq<Phase>) {
    Level(j) && Tells(site, before, phases, j.live.observations) && j.env.site == Unheard(site, |phases|)
  }

  // How a step ends: what is durable is told by some phases; if it returned, exactly by these.
  ghost predicate Reports<T>(r: JobResult<T>, site: seq<Sight>, before: seq<Observation>, phases: seq<Phase>) {
    Told(site, before, r.state.Saved().observations) && (r.Done? ==> Recounts(r.state, site, before, phases))
  }

  /******* One observation *******/

  // Recorded with the pending work in one commit; the rest of the row is what was pending.
  lemma ObserveRecords(j: Job, phase: Phase, cfg: Config)
    requires cfg.observed
    ensures var r := Observe(j, phase, cfg);
            && (r.Done? <==> j.env.life >= 2) && (!r.Done? ==> r.Died? && r.state.Saved() == j.Saved())
            && (r.Done? ==>
                  && r.state.Clean() && r.state.Log() == j.Log()
                  && r.state.live == j.live.(observations := r.state.live.observations)
                  && var sight := if j.env.site == [] then Unseen("observation_failed") else j.env.site[0];
                     r.state.live.observations ==
                     j.live.observations + [Observation(phase, NextSequence(j.live.observations, phase), sight)])
  {
  }

  lemma ObserveReports(j: Job, phase: Phase, cfg: Config, site: seq<Sight>, before: seq<Observation>, phases: seq<Phase>)
    requires cfg.observed && Recounts(j, site, before, phases)
    ensures Reports(Observe(j, phase, cfg), site, before, phases + [phase])
  {
    hide NextSequence;
    var r := Observe(j, phase, cfg);
    if r.Done? {
      assert Recounts(r.state, site, before, phases + [phase]);
    } else {
      assert Tells(site, before, phases, r.state.Saved().observations);
    }
  }

  /******* Everything else *******/

  predicate Quiet(j: Job, k: Job) {
    k.env.site == j.env.site && (Level(j) ==> Level(k) && k.live.observations == j.live.observations)
  }

  lemma QuietReports<T>(j: Job, r: JobResult<T>, site: seq<Sight>, before: seq<Observation>, phases: seq<Phase>)
    requires Recounts(j, site, before, phases) && Quiet(j, r.state)
    ensures Reports(r, site, before, phases) && Recounts(r.state, site, before, phases)
  {
  }

  lemma StepQuiet(j: Job, target: State, reason: Reason, actor: string)
    ensures Quiet(j, Transit(j, target, reason, actor).state) && Quiet(j, TransitAndCommit(j, target, reason, actor).state)
  {
  }

  lemma PortsQuiet(j: Job)
    ensures forall e :: Quiet(j, Note(j, e))
    ensures Quiet(j, AskGate(j).state) && Quiet(j, Scenarios.Preflight(j).state) && Quiet(j, Scenarios.VerifyActive(j).state)
  {
  }

  lemma CleanupPortsQuiet(j: Job)
    ensures Quiet(j, Scenarios.Cleanup(j).state) && Quiet(j, Scenarios.VerifyCleanup(j).state)
  {
    forall k: Job ensures Quiet(k, Scenarios.Restore(k).state) && Quiet(k, Scenarios.GatedRestore(k).state) {
      RestoreQuiet(k);
    }
    hide EffectGone, Owned, Scenarios.Restore, Scenarios.GatedRestore;
  }

  lemma RestoreQuiet(j: Job)
    ensures Quiet(j, Scenarios.Restore(j).state) && Quiet(j, Scenarios.GatedRestore(j).state)
  {
    hide EffectGone, Owned;
  }

  lemma InjectQuiet(j: Job, cfg: Config)
    ensures Quiet(j, Inject(j, cfg).state)
  {
    hide TransitAndCommit;
    var injected := Scenarios.Inject(j);
    assert Quiet(j, injected.state);
    if injected.Done? {
      var saved := Commit(injected.state.(live := injected.state.live.(context := Some(injected.value))));
      assert Quiet(j, saved.state);
      hide Scenarios.Inject, Commit;
      PortsQuiet(saved.state);
      var confirmed := if HasVerifyActive(saved.state.live.kind) then Scenarios.VerifyActive(saved.state) else Done(true, saved.state);
      StepQuiet(confirmed.state, Active, InjectionVerified, cfg.actor);
    }
    var tried := TryInject(j, cfg);
    assert Quiet(j, tried.state);
    StepQuiet(tried.state, CleaningUp, InjectionUncertain, cfg.actor);
  }

  lemma AttemptQuiet(j: Job)
    ensures Quiet(j, AttemptCleanup(j).state)
  {
    hide Scenarios.Cleanup, NextAttempt;
    CleanupPortsQuiet(ReadClock(j).1);
  }

  /******* The parts of a pass *******/

  lemma StepReports(j: Job, target: State, reason: Reason, actor: string, site: seq<Sight>, before: seq<Observation>,
                    phases: seq<Phase>)
    requires Recounts(j, site, before, phases)
    ensures Reports(TransitAndCommit(j, target, reason, actor), site, before, phases)
    ensures Reports(Transit(j, target, reason, actor), site, before, phases)
  {
    StepQuiet(j, target, reason, actor);
    hide TransitAndCommit, Transit, Recounts, Quiet;
    QuietReports(j, TransitAndCommit(j, target, reason, actor), site, before, phases);
    QuietReports(j, Transit(j, target, reason, actor), site, before, phases);
  }

  lemma AfterProbeReports(j: Job, cfg: Config, site: seq<Sight>, before: seq<Observation>)
    requires cfg.observed && Recounts(j, site, before, [])
    ensures var r := AfterProbe(j, cfg);
            && Reports(r, site, before, if r.Done? && r.value == Failed then [] else [Before])
            && (r.Done? ==> r.value in {Failed, Injecting})
  {
    hide Told, Recounts, Quiet, AskGate, Observe, Transit, Commit;
    var checked := AskGate(j);
    PortsQuiet(j);
    QuietReports(j, checked, site, before, []);
    StepReports(checked.state, Failed, PreflightRefused, cfg.actor, site, before, []);
    ObserveReports(checked.state, Before, cfg, site, before, []);
    assert [] + [Before] == [Before];
    var seen := Observe(checked.state, Before, cfg);
    if seen.Done? { StepReports(seen.state, Injecting, PreflightPassed, cfg.actor, site, before, [Before]); }
  }

  lemma PrepareReports(j: Job, cfg: Config)
    requires cfg.observed && Level(j)
    ensures var r := Prepare(j, cfg);
            && Reports(r, j.env.site, j.live.observations, if r.Done? && r.value == Failed then [] else [Before])
            && (r.Done? ==> r.value in {Failed, Injecting})
  {
    hide Told, Recounts, Quiet, AfterProbe, Transit, Commit, Scenarios.Preflight;
    var site, before := j.env.site, j.live.observations;
    NothingYet(j);
    StepReports(j, State.Preflight, PreflightStarted, cfg.actor, site, before, []);
    var k := EnterPreflight(j, cfg);
    StepQuiet(j, State.Preflight, PreflightStarted, cfg.actor);
    QuietReports(j, Transit(j, State.Preflight, PreflightStarted, cfg.actor), site, before, []);
    PortsQuiet(k.state);
    var probed := if HasPreflight(k.state.live.kind) then Scenarios.Preflight(k.state) else Done(true, k.state);
    if HasPreflight(k.state.live.kind) { QuietReports(k.state, probed, site, before, []); }
    StepReports(probed.state, Failed, PreflightRefused, cfg.actor, site, before, []);
    AfterProbeReports(probed.state, cfg, site, before);
    RecountsTold(k.state, site, before, []);
    RecountsTold(probed.state, site, before, []);
  }

  lemma NothingYet(j: Job)
    requires Level(j)
    ensures Recounts(j, j.env.site, j.live.observations, [])
  {
  }

  lemma RecountsTold(j: Job, site: seq<Sight>, before: seq<Observation>, phases: seq<Phase>)
    requires Recounts(j, site, before, phases)
    ensures Told(site, before, j.Saved().observations)
  {
  }

  lemma AttendReports(j: Job, cfg: Config, site: seq<Sight>, before: seq<Observation>, phases: seq<Phase>)
    requires cfg.observed && Recounts(j, site, before, phases)
    ensures var r := Attend(j, cfg);
            && Reports(r, site, before, if r.Done? && r.value == Active then phases + [During] else phases)
            && (r.Done? && j.live.state != Active ==> r.value == j.live.state)
            && (r.Done? && j.live.state == Active ==> r.value in {Active, Expired})
            && (r.Done? && r.value == Active ==> r.state.live.state == Active)
  {
    hide Told, Recounts, Quiet, Transit, Commit;
    var clock := ReadClock(j);
    ClockQuiet(j);
    QuietReports(j, Done((), clock.1), site, before, phases);
    StepReports(clock.1, Expired, DeadlineReached, cfg.actor, site, before, phases);
    ObserveReports(clock.1, During, cfg, site, before, phases);
    ObserveRecords(clock.1, During, cfg);
    hide Observe;
  }

  lemma ClockQuiet(j: Job)
    ensures Quiet(j, ReadClock(j).1)
  {
  }

  predicate Decided(s: State) { s in {Passed, Cancelled, OperatorAttention} }

  lemma FinishReports(j: Job, cancelled: bool, verified: bool, cfg: Config, site: seq<Sight>, before: seq<Observation>,
                      phases: seq<Phase>)
    requires Recounts(j, site, before, phases)
    ensures var r := Finish(j, cancelled, verified, cfg);
            Reports(r, site, before, phases) && (r.Done? ==> Decided(r.value))
  {
    var judged := Judged(j, cancelled, verified);
    assert Recounts(judged, site, before, phases);
    hide Told, Recounts;
    StepReports(judged, Conclusion(cancelled, verified), VerificationEnded(verified), cfg.actor, site, before, phases);
  }

  lemma ConcludeReports(j: Job, cancelled: bool, cfg: Config, site: seq<Sight>, before: seq<Observation>, phases: seq<Phase>)
    requires cfg.observed && Recounts(j, site, before, phases)
    ensures var r := Conclude(j, cancelled, cfg);
            Reports(r, site, before, phases + [Phase.After]) && (r.Done? ==> Decided(r.value))
  {
    hide Told, Recounts, Quiet, Transit, Scenarios.VerifyCleanup, Observe, Finish;
    StepReports(j, Verifying, CleanupSucceeded, cfg.actor, site, before, phases);
    var moved := Transit(j, Verifying, CleanupSucceeded, cfg.actor);
    if moved.Done? {
      CleanupPortsQuiet(moved.state);
      var answered := Caught(Scenarios.VerifyCleanup(moved.state));
      QuietReports(moved.state, answered, site, before, phases);
      if answered.Done? {
        var verified := answered.value == Some(true);
        PortsQuiet(answered.state);
        var noted := Note(answered.state, VerifyAnswered(verified));
        QuietReports(answered.state, Done((), noted), site, before, phases);
        ObserveReports(noted, Phase.After, cfg, site, before, phases);
        var seen := Observe(noted, Phase.After, cfg);
        if seen.Done? { FinishReports(seen.state, cancelled, verified, cfg, site, before, phases + [Phase.After]); }
      }
    }
  }

  lemma GiveUpReports(j: Job, cfg: Config, site: seq<Sight>, before: seq<Observation>, phases: seq<Phase>)
    requires Recounts(j, site, before, phases) && j.live.state == CleaningUp
    ensures var r := GiveUp(j, cfg); r.Raised? && Reports(r, site, before, phases)
  {
  }

  lemma MarkedReports(j: Job, cancelled: bool, cfg: Config, site: seq<Sight>, before: seq<Observation>, phases: seq<Phase>)
    requires cfg.observed && Recounts(j, site, before, phases) && At(j, CleaningUp, cfg, j.path)
    ensures var r := CleanupMarked(j, cancelled, cfg);
            && Reports(r, site, before, if r.Done? && Decided(r.value) then phases + [Phase.After] else phases)
            && (r.Done? ==> Decided(r.value) || r.value == CleanupFailed)
  {
    hide Told, Recounts, Quiet, AttemptCleanup, Conclude, GiveUp, Transit, Commit, ValidPath, CommitAllowed, Extends;
    AttemptQuiet(j);
    var tried := AttemptCleanup(j);
    QuietReports(j, tried, site, before, phases);
    ConcludeReports(tried.state, cancelled, cfg, site, before, phases);
    StepReports(tried.state, CleanupFailed, CleanupRefused, cfg.actor, site, before, phases);
    AttemptOn(j, cfg, j.path);
    if tried.Done? { GiveUpReports(tried.state, cfg, site, before, phases); }
  }

  lemma CleanupReports(j: Job, cancelled: bool, cfg: Config, site: seq<Sight>, before: seq<Observation>, phases: seq<Phase>)
    requires cfg.observed && Recounts(j, site, before, phases) && At(j, CleaningUp, cfg, j.path)
    requires j.live.outcome == Some(CancelledPending) ==> cancelled
    requires cancelled ==> Mentions(j.live.audit, CancellationRequested)
    ensures var r := Cleanup(j, cancelled, cfg);
            && Reports(r, site, before, if r.Done? && Decided(r.value) then phases + [Phase.After] else phases)
            && (r.Done? ==> Decided(r.value) || r.value == CleanupFailed)
  {
    hide CommitAllowed, ValidPath, Extends, Told, Tells, CleanupMarked;
    MarkOn(j, cancelled, cfg, j.path);
    var marked := MarkCancelled(j, cancelled);
    assert Quiet(j, marked.state);
    QuietReports(j, marked, site, before, phases);
    if marked.Done? {
      Reflexive(marked.state, cfg, j.path);
      MarkedReports(marked.state, cancelled, cfg, site, before, phases);
    }
  }

  lemma RetireReports(j: Job, cfg: Config, site: seq<Sight>, before: seq<Observation>, phases: seq<Phase>)
    requires cfg.observed && Recounts(j, site, before, phases) && At(j, j.live.state, cfg, j.path) && j.live.state != Injecting
    ensures var r := Retire(j, cfg);
            && Reports(r, site, before,
                       if r.Done? && NeedsCleanup(j.live.state) && Decided(r.value) then phases + [Phase.After] else phases)
            && (r.Done? ==> if NeedsCleanup(j.live.state) then Decided(r.value) || r.value == CleanupFailed else r.value == j.live.state)
  {
    hide CommitAllowed, ValidPath, Extends, Cleanup, TransitAndCommit, Told, Tells;
    var state := j.live.state;
    RecountsTold(j, site, before, phases);
    if NeedsCleanup(state) {
      PathSound(j.path, cfg.Limit());
      StepReports(j, CleaningUp, CleanupRequired, cfg.actor, site, before, phases);
      var entered := if state == CleaningUp then Done(state, j)
                     else TransitAndCommit(j, CleaningUp, CleanupRequired, cfg.actor);
      if state != CleaningUp { StepOn(j, CleaningUp, CleanupRequired, cfg.actor, cfg, j.path); }
      if entered.Done? {
        CancelledMentions(j, entered.state, cfg, j.path);
        Reflexive(entered.state, cfg, j.path);
        CleanupReports(entered.state, state == CancellationRequested || entered.state.live.outcome == Some(CancelledPending), cfg,
                       site, before, phases);
      }
    }
  }

  /******* The whole pass *******/

  // The observations of a pass that returned: one before an injection, one while the experiment stays
  // active, one after a verified or unverified cleanup.
  function Watches(from: State, to: State): seq<Phase> {
    (if from in {Planned, State.Preflight} && to != Failed then [Before] else [])
    + (if to == Active then [During] else if Decided(to) then [Phase.After] else [])
  }

  lemma WatchesSplit(from: State, phases: seq<Phase>)
    requires phases == if from in {Planned, State.Preflight} then [Before] else []
    ensures Watches(from, Active) == phases + [During] && Watches(from, CleanupFailed) == phases
    ensures forall to :: Decided(to) ==> Watches(from, to) == phases + [Phase.After]
  {
  }

  // Whatever the observer answers, and wherever the process dies, what a pass adds to the
  // observations are the observer's answers in the order it gave them; a pass that returns has asked
  // in exactly these phases.
  lemma PassReports(j: Job, cfg: Config)
    requires cfg.observed && At(j, j.live.state, cfg, j.path) && Claimable(j.live.state)
    ensures var r := RunOnce(j, cfg);
            && Told(j.env.site, j.live.observations, r.state.Saved().observations)
            && (r.Done? ==> Recounts(r.state, j.env.site, j.live.observations, Watches(j.live.state, r.value)))
  {
    hide CommitAllowed, ValidPath, Extends, Prepare, Inject, Attend, Retire, Told, Tells;
    var site, before := j.env.site, j.live.observations;
    var entered := Note(j, Entered);
    NoteOn(j, Entered, cfg, j.path);
    NothingYet(entered);
    RecountsTold(entered, site, before, []);
    var early := j.live.state in {Planned, State.Preflight};
    if early {
      PrepareOn(entered, cfg, j.path);
      PrepareReports(entered, cfg);
    }
    var prepared := if early then Prepare(entered, cfg) else Done(j.live.state, entered);
    if prepared.Done? {
      var phases := if early && prepared.value != Failed then [Before] else [];
      InjectQuiet(prepared.state, cfg);
      if prepared.value == Injecting { InjectOn(prepared.state, cfg, j.path); }
      var injected := if prepared.value == Injecting then Inject(prepared.state, cfg) else prepared;
      if prepared.value == Injecting { QuietReports(prepared.state, injected, site, before, phases); }
      if injected.Done? {
        AfterInjection(injected.state, j, cfg, phases);
        if prepared.value == Failed { assert Watches(j.live.state, Failed) == []; }
        else { WatchesSplit(j.live.state, phases); }
      }
    }
  }

  lemma AfterInjection(k: Job, j: Job, cfg: Config, phases: seq<Phase>)
    requires cfg.observed && At(k, k.live.state, cfg, j.path) && k.live.state !in {Planned, State.Preflight, Injecting, Verifying}
    requires Recounts(k, j.env.site, j.live.observations, phases)
    ensures var attended := Attend(k, cfg);
            var r := if attended.Done? then Retire(attended.state, cfg) else attended;
            && Told(j.env.site, j.live.observations, r.state.Saved().observations)
            && (r.Done? ==>
                  && (r.value == Active ==> Recounts(r.state, j.env.site, j.live.observations, phases + [During]))
                  && (Decided(r.value) && !Terminal(k.live.state) ==>
                        Recounts(r.state, j.env.site, j.live.observations, phases + [Phase.After]))
                  && (r.value == CleanupFailed || Terminal(k.live.state) ==> Recounts(r.state, j.env.site, j.live.observations, phases))
                  && (if Terminal(k.live.state) then r.value == k.live.state
                      else r.value in {Active, CleanupFailed} || Decided(r.value)))
  {
    hide CommitAllowed, ValidPath, Extends, Attend, Retire, Told, Tells;
    AttendOn(k, cfg, j.path);
    AttendReports(k, cfg, j.env.site, j.live.observations, phases);
    var attended := Attend(k, cfg);
    if attended.Done? {
      Reflexive(attended.state, cfg, j.path);
      RetireReports(attended.state, cfg, j.env.site, j.live.observations, if attended.value == Active then phases + [During] else phases);
    }
  }
}
