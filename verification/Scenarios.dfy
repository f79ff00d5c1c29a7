/** The evidence rules of the three scenarios, and of a scenario about which nothing is known. */
module Evidence {
  import opened Wrappers
  import opened Lifecycle
  import opened Rows
  import opened Machine

  predicate ParametersAccepted(kind: Kind, p: Parameters) {
    match kind
    case CpuPressure => 1 <= p.duration <= 900 && 1 <= p.first <= 8 && 10 <= p.second <= 80
    case ApacheStop => 1 <= p.duration <= 3600
    case DiskPressure => 1 <= p.duration <= 900 && 1 <= p.first <= 4096 && 1 <= p.second <= 64 && p.second <= p.first
    case _ => true
  }

  predicate HasPreflight(kind: Kind) { kind.Custom? ==> kind.probes }

  predicate HasVerifyActive(kind: Kind) { kind.Custom? ==> kind.confirms }

  // The ownership entry a scenario writes on injection and demands before it restores anything.
  function OwnershipProof(kind: Kind): Option<Proof> {
    match kind
    case CpuPressure => Some(WorkloadOwned)
    case ApacheStop => Some(ApacheStopConfirmed)
    case DiskPressure => Some(ArtifactOwned)
    case _ => None
  }

  predicate Owned(kind: Kind, context: Option<set<Proof>>) {
    var proof := OwnershipProof(kind);
    proof.Some? ==> context.Some? && proof.value in context.value
  }

  predicate BaselineOk(kind: Kind, p: Parameters, r: Reading) {
    match kind
    case CpuPressure => !r.active && r.owned && r.cpus >= 2
    case ApacheStop => r.installed && r.active
    case DiskPressure => r.storageOwned && !r.owned && r.freeBytes - p.first * 1024 * 1024 >= r.reserveBytes
    case _ => r.ok
  }

  predicate InjectionProved(kind: Kind, r: Reading) {
    match kind
    case CpuPressure => r.active && r.owned
    case ApacheStop => !r.active && r.changed
    case DiskPressure => r.owned && r.active
    case _ => r.ok
  }

  function InjectionContext(kind: Kind): set<Proof> {
    var proof := OwnershipProof(kind);
    if proof.Some? then {proof.value} else {}
  }

  predicate EffectActive(kind: Kind, r: Reading) {
    match kind
    case CpuPressure => r.active && r.owned
    case ApacheStop => !r.active
    case DiskPressure => r.owned
    case _ => r.ok
  }

  // The answer of the restoring call, or of the probe that replaces it when verifying.
  predicate EffectGone(kind: Kind, r: Reading) {
    match kind
    case CpuPressure => !r.active
    case ApacheStop => r.active
    case DiskPressure => !r.owned
    case _ => r.ok
  }

  // The longest a scenario may be asked to run.
  function MaxDuration(kind: Kind): int {
    if kind == ApacheStop then 3600 else 900
  }

  // A duration can be asked for, with some other parameters, exactly up to the scenario's maximum,
  // and none exceeds the limit of every experiment.
  lemma DurationsExactly(kind: Kind, duration: int)
    requires OwnershipProof(kind).Some?
    ensures (exists first, second :: ParametersAccepted(kind, Parameters(duration, first, second))) <==>
            1 <= duration <= MaxDuration(kind)
    ensures MaxDuration(kind) <= HARD_MAX_DURATION_SECONDS
  {
    if 1 <= duration <= MaxDuration(kind) {
      assert ParametersAccepted(kind, Parameters(duration, if kind == DiskPressure then 50 else 8, 50));
    }
  }

  // The context one scenario leaves authorizes no other scenario's cleanup, and neither does an
  // empty or an absent one.
  lemma OnlyOwnProof(kind: Kind, other: Kind)
    requires OwnershipProof(kind).Some? && OwnershipProof(other).Some?
    ensures Owned(kind, Some(InjectionContext(other))) <==> kind == other
    ensures !Owned(kind, None) && !Owned(kind, Some({}))
  {
  }

  // The verdicts fit together: an answer that proves an injection also confirms the effect, and no
  // answer both confirms the effect and says that it is gone. For Apache and the disk artifact one
  // of the two always holds; a CPU load that is not the agent's own is neither.
  lemma VerdictsFit(kind: Kind, r: Reading)
    requires OwnershipProof(kind).Some?
    ensures InjectionProved(kind, r) ==> EffectActive(kind, r)
    ensures EffectActive(kind, r) ==> !EffectGone(kind, r)
    ensures !EffectActive(kind, r) && !EffectGone(kind, r) <==> kind == CpuPressure && r.active && !r.owned
  {
  }

  // A baseline never already shows the effect, and the storage reserve outlives the allocation.
  lemma BaselineLeavesRoom(kind: Kind, p: Parameters, r: Reading, used: int)
    requires OwnershipProof(kind).Some? && BaselineOk(kind, p, r) && used <= p.first * 1_048_576
    ensures EffectGone(kind, r) && !EffectActive(kind, r)
    ensures kind == DiskPressure ==> r.freeBytes - used >= r.reserveBytes
  {
  }
}

/** The scenario operations, as they act through the control port. */
module Scenarios {
  import opened Wrappers
  import opened Rows
  import opened Machine
  import opened Evidence

  function Preflight(j: Job): JobResult<bool> {
    var (reading, j) :- AskControl(j);
    var ok := BaselineOk(j.live.kind, j.live.parameters, reading);
    Done(ok, Note(j, Probed(ok)))
  }

  // Returns the cleanup context; an effect that is not verified raises.
  function Inject(j: Job): JobResult<set<Proof>> {
    var (_, j) :- Spend(j, AtPort);
    var (reading, j) :- AskControl(Note(j, InjectCalled));
    if InjectionProved(j.live.kind, reading) then Done(InjectionContext(j.live.kind), Note(j, InjectProved(reading)))
    else Raised(InjectionUnverified, j)
  }

  function VerifyActive(j: Job): JobResult<bool> {
    var (reading, j) :- AskControl(j);
    Done(EffectActive(j.live.kind, reading), j)
  }

  // Apache start, CPU stop, disk stop.
  function Restore(j: Job): JobResult<bool> {
    var j := if j.live.kind.Custom? || j.live.kind.Unlisted? then j else Note(j, Restored);
    var (reading, j) :- AskControl(j);
    Done(EffectGone(j.live.kind, reading), j)
  }

  function GatedRestore(j: Job): JobResult<bool> {
    if Owned(j.live.kind, j.live.context) then Restore(j) else Done(false, j)
  }

  function Cleanup(j: Job): JobResult<bool> {
    var (_, j) :- Spend(j, AtPort);
    GatedRestore(Note(j, CleanupCalled))
  }

  // CPU stops again without looking at ownership, disk repeats its cleanup, Apache only looks.
  function VerifyCleanup(j: Job): JobResult<bool> {
    var (_, j) :- Spend(j, AtPort);
    var j := Note(j, VerifyCalled);
    match j.live.kind
    case CpuPressure => Restore(j)
    case DiskPressure => GatedRestore(j)
    case _ =>
      var (reading, j) :- AskControl(j);
      Done(EffectGone(j.live.kind, reading), j)
  }
}
