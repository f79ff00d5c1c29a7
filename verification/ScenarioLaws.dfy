/** What each scenario operation makes of the answer it gets, said of the answer itself. */
module ScenarioLaws {
  import opened Wrappers
  import opened Lifecycle
  import opened Rows
  import opened Machine
  import opened Evidence
  import Scenarios

  // The process lives through the call and the control port answers it with `r`.
  predicate Hears(j: Job, r: Reading) { j.env.life >= 2 && j.env.control != [] && j.env.control[0] == Reply(r) }

  predicate Holds(j: Job, proof: Proof) { j.live.context.Some? && proof in j.live.context.value }

  // The log with the events added, oldest first.
  function With(log: Log, events: seq<Event>): Log {
    if events == [] then log else Logged(With(log, events[..|events| - 1]), events[|events| - 1])
  }

  lemma WithTwo(log: Log, first: Event, second: Event)
    ensures With(log, [first, second]) == Logged(Logged(log, first), second) && With(log, [first]) == Logged(log, first)
  {
    assert [first, second][..1] == [first] && [first][..0] == [];
    assert With(log, [first][..0]) == log;
    assert With(log, [first]) == Logged(log, first);
  }

  // A stop that was not seen to change the service is no proof: somebody else may have stopped it.
  lemma ApacheInjects(j: Job, r: Reading)
    requires j.live.kind == ApacheStop && Hears(j, r)
    ensures var q := Scenarios.Inject(j);
            && (q.Done? <==> !r.active && r.changed)
            && (q.Done? ==> q.value == {ApacheStopConfirmed} && q.state.Log() == With(j.Log(), [InjectCalled, InjectProved(r)]))
            && (!q.Done? ==> q == Raised(InjectionUnverified, q.state) && q.state.Log() == With(j.Log(), [InjectCalled]))
            && q.state.live == j.live && q.state.Saved() == j.Saved()
  {
    WithTwo(j.Log(), InjectCalled, InjectProved(r));
  }

  lemma CpuInjects(j: Job, r: Reading)
    requires j.live.kind == CpuPressure && Hears(j, r)
    ensures var q := Scenarios.Inject(j);
            && (q.Done? <==> r.active && r.owned)
            && (q.Done? ==> q.value == {WorkloadOwned} && q.state.Log() == With(j.Log(), [InjectCalled, InjectProved(r)]))
            && (!q.Done? ==> q == Raised(InjectionUnverified, q.state) && q.state.Log() == With(j.Log(), [InjectCalled]))
            && q.state.live == j.live && q.state.Saved() == j.Saved()
  {
    WithTwo(j.Log(), InjectCalled, InjectProved(r));
  }

  lemma DiskInjects(j: Job, r: Reading)
    requires j.live.kind == DiskPressure && Hears(j, r)
    ensures var q := Scenarios.Inject(j);
            && (q.Done? <==> r.owned && r.active)
            && (q.Done? ==> q.value == {ArtifactOwned} && q.state.Log() == With(j.Log(), [InjectCalled, InjectProved(r)]))
            && (!q.Done? ==> q == Raised(InjectionUnverified, q.state) && q.state.Log() == With(j.Log(), [InjectCalled]))
            && q.state.live == j.live && q.state.Saved() == j.Saved()
  {
    WithTwo(j.Log(), InjectCalled, InjectProved(r));
  }

  // Before: the service runs; two processors and an idle scope of the agent's own; dedicated
  // storage without an artifact and with its reserve left after the whole allocation.
  lemma BaselinesExactly(j: Job, r: Reading)
    requires Hears(j, r)
    ensures var q := Scenarios.Preflight(j);
            && q.Done? && q.state.Log() == Logged(j.Log(), Probed(q.value)) && q.state.live == j.live
            && (j.live.kind == ApacheStop ==> (q.value <==> r.installed && r.active))
            && (j.live.kind == CpuPressure ==> (q.value <==> r.owned && !r.active && r.cpus > 1))
            && (j.live.kind == DiskPressure ==>
                  (q.value <==> r.storageOwned && !r.owned
                                && r.reserveBytes + 1_048_576 * j.live.parameters.first <= r.freeBytes))
            && (j.live.kind.Custom? ==> (q.value <==> r.ok))
  {
  }

  // During: the service is down; the load is the agent's own and runs; the artifact is there.
  lemma EffectsExactly(j: Job, r: Reading)
    requires Hears(j, r)
    ensures var q := Scenarios.VerifyActive(j);
            && q.Done? && q.state.Log() == j.Log() && q.state.live == j.live
            && (j.live.kind == ApacheStop ==> (q.value <==> !r.active))
            && (j.live.kind == CpuPressure ==> (q.value <==> r.active && r.owned))
            && (j.live.kind == DiskPressure ==> (q.value <==> r.owned))
            && (j.live.kind.Custom? ==> (q.value <==> r.ok))
  {
  }

  // Cleaning up with the ownership entry: the restoring call is made and its answer decides.
  lemma OwnedCleanupsExactly(j: Job, r: Reading)
    requires Hears(j, r)
    requires j.live.kind == ApacheStop ==> Holds(j, ApacheStopConfirmed)
    requires j.live.kind == CpuPressure ==> Holds(j, WorkloadOwned)
    requires j.live.kind == DiskPressure ==> Holds(j, ArtifactOwned)
    ensures var q := Scenarios.Cleanup(j);
            && q.Done? && q.state.live == j.live
            && (j.live.kind == ApacheStop ==> (q.value <==> r.active))
            && (j.live.kind == CpuPressure ==> (q.value <==> !r.active))
            && (j.live.kind == DiskPressure ==> (q.value <==> !r.owned))
            && (j.live.kind.Custom? ==> (q.value <==> r.ok))
            && (OwnershipProof(j.live.kind).Some? ==> q.state.Log() == With(j.Log(), [CleanupCalled, Restored]))
  {
    WithTwo(j.Log(), CleanupCalled, Restored);
  }

  // Without it: no call, no answer taken, and failure.
  lemma UnownedCleanupsRefuse(j: Job)
    requires j.env.life >= 1
    requires || (j.live.kind == ApacheStop && !Holds(j, ApacheStopConfirmed))
             || (j.live.kind == CpuPressure && !Holds(j, WorkloadOwned))
             || (j.live.kind == DiskPressure && !Holds(j, ArtifactOwned))
    ensures Scenarios.Cleanup(j) == Done(false, Note(j, CleanupCalled).(env := j.env.(life := j.env.life - 1)))
  {
  }

  // Verifying: CPU stops again without asking who owns the load, disk repeats its gated cleanup,
  // Apache is only looked at.
  lemma VerificationsExactly(j: Job, r: Reading)
    requires Hears(j, r)
    ensures var q := Scenarios.VerifyCleanup(j);
            && q.Done? && q.state.live == j.live
            && (j.live.kind == ApacheStop ==> (q.value <==> r.active) && q.state.Log() == With(j.Log(), [VerifyCalled]))
            && (j.live.kind == CpuPressure ==> (q.value <==> !r.active) && q.state.Log() == With(j.Log(), [VerifyCalled, Restored]))
            && (j.live.kind == DiskPressure ==> (q.value <==> Holds(j, ArtifactOwned) && !r.owned))
            && (j.live.kind == DiskPressure && Holds(j, ArtifactOwned) ==> q.state.Log() == With(j.Log(), [VerifyCalled, Restored]))
            && (j.live.kind == DiskPressure && !Holds(j, ArtifactOwned) ==> q.state.Log() == With(j.Log(), [VerifyCalled]))
            && (j.live.kind.Custom? ==> (q.value <==> r.ok))
  {
    WithTwo(j.Log(), VerifyCalled, Restored);
  }

  // A port that raises raises through every operation that reaches it.
  lemma FaultsRaise(j: Job)
    requires j.env.life >= 2 && (j.env.control == [] || j.env.control[0] == Fault)
    ensures Scenarios.Preflight(j) == Raised(PortRaised, Scenarios.Preflight(j).state)
    ensures Scenarios.Inject(j) == Raised(PortRaised, Scenarios.Inject(j).state)
    ensures Scenarios.VerifyActive(j) == Raised(PortRaised, Scenarios.VerifyActive(j).state)
    ensures Scenarios.Restore(j) == Raised(PortRaised, Scenarios.Restore(j).state)
  {
  }

  /******* Parameters *******/

  // Every parameter has its own range, and the ranges are independent but for the disk chunk, which
  // is at most the allocation. Apache has no parameter but the duration.
  lemma CpuParameters(workers: int, percent: int)
    ensures (exists d, s :: ParametersAccepted(CpuPressure, Parameters(d, workers, s))) <==> 1 <= workers <= 8
    ensures (exists d, f :: ParametersAccepted(CpuPressure, Parameters(d, f, percent))) <==> 10 <= percent <= 80
    ensures forall d :: 1 <= d <= 900 && 1 <= workers <= 8 && 10 <= percent <= 80 ==>
              ParametersAccepted(CpuPressure, Parameters(d, workers, percent))
  {
    if 1 <= workers <= 8 { assert ParametersAccepted(CpuPressure, Parameters(1, workers, 10)); }
    if 10 <= percent <= 80 { assert ParametersAccepted(CpuPressure, Parameters(1, 1, percent)); }
  }

  lemma DiskParameters(allocation: int, chunk: int)
    ensures (exists d, s :: ParametersAccepted(DiskPressure, Parameters(d, allocation, s))) <==> 1 <= allocation <= 4096
    ensures (exists d, f :: ParametersAccepted(DiskPressure, Parameters(d, f, chunk))) <==> 1 <= chunk <= 64
    ensures (exists d :: ParametersAccepted(DiskPressure, Parameters(d, allocation, chunk))) <==>
            1 <= allocation <= 4096 && 1 <= chunk <= 64 && chunk <= allocation
    ensures forall d :: 1 <= d <= 900 && 1 <= chunk <= 64 && chunk <= allocation <= 4096 ==>
              ParametersAccepted(DiskPressure, Parameters(d, allocation, chunk))
    ensures forall d, f, s :: ParametersAccepted(ApacheStop, Parameters(d, f, s)) <==> ParametersAccepted(ApacheStop, Parameters(d, 0, 0))
  {
    if 1 <= allocation <= 4096 { assert ParametersAccepted(DiskPressure, Parameters(1, allocation, 1)); }
    if 1 <= chunk <= 64 { assert ParametersAccepted(DiskPressure, Parameters(1, 4096, chunk)); }
    if 1 <= allocation <= 4096 && 1 <= chunk <= 64 && chunk <= allocation {
      assert ParametersAccepted(DiskPressure, Parameters(1, allocation, chunk));
    }
  }
}
