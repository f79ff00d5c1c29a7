# Chaos agent: the durable experiment lifecycle

The agent injects bounded faults into one development web server and must undo what it did, whatever
happens in between. This project models the engine that promises that: the lifecycle graph, the
repository with its compare-and-swap transitions, the coordinator, the supervisor that restarts after
crashes, the three scenarios, and the preflight that gates every injection.

Everything outside the process is adversarial. A control call, the preflight gate and the observer may
answer anything or raise; the clock may stand still; the process may die before any port call and before
any commit, as often as it likes, and is then replaced by a new one on the same database.

## How the proof is built

1. **The program, step by step.** `Process.dfy` (session and repository), `Coordinator.dfy` (scenarios and
   coordinator), `Supervisor.dfy` and `Deployment.dfy` are classes whose methods change the pending copy of a
   row, commit it, call ports, raise and die. `Preflight.dfy` holds the preflight service in the same form.
2. **What a step computes.** Each of those methods is proved equal to a function of the state it starts from
   (`CoordinatorSpec.dfy`, `SupervisorSpec.dfy`, over the `Job` and `Sys` of `Machine.dfy` and
   `SupervisorSpec.dfy`). `Deployment.Execute` ties the two together for whole runs.
3. **The protocol.** `Protocol.dfy` states, without control flow, which port calls and which commits may follow
   each durable condition of an experiment. `CoordinatorFollows.dfy`, `CleanupFollows.dfy` and
   `SupervisorFollows.dfy` prove that the program never leaves it, cut at any point; the headline is
   `SupervisorFollows.EveryRunFollows`.
4. **The steps, told by their answers.** `ScenarioLaws.dfy`, `StepLaws.dfy`, `Limits.dfy`, `Sightings.dfy`, `Tenure.dfy`
   and `Intake.dfy` say what each operation does to the durable row without naming the function that computes it: by
   the fields of the reply, the configured numbers, the readings of the clock and the operation asked for.
5. **The properties.** `Safety.dfy`, `Edges.dfy`, `Outcomes.dfy`, `Cancellation.dfy`, `Timeline.dfy` and `Restart.dfy` prove
   what holds on the protocol, `Runs.dfy` says it of every run; `Convergence.dfy`, `Transparency.dfy`,
   `Aspects.dfy`, `Lasting.dfy` and `Drain.dfy` prove what needs the program itself. `Turns.dfy`, `Leading.dfy`,
   `Starvation.dfy`, `Blocked.dfy` and `Stranded.dfy` say which experiments make progress and which never will, with the
   answers that would let them in `Passable.dfy`. `Sessions.dfy` drops the one-process assumption and lets any
   number of sessions work on stale cached rows; `Leases.dfy` lets any number of instances claim, renew and
   release.

A `Path` is the history of one experiment: every durable row it has had, and between rows every port call made
for it. `ValidPath(p, limit)` says the history follows the protocol with `limit` cleanup attempts.

## Where the code and its specification part

Each of these is proved of the code as it is written; the documents are the ones under `specs/`. `Witnesses.dfy` holds
runs from an empty database that reach the conditions.

- Exhausted cleanup attempts do not reach `operator_attention` (phase-03-experiment-engine.md:373). The
  coordinator asks for an edge the graph refuses, so it raises, the attempt stays recorded and the row stays in
  `cleaning_up` (`Limits.PassRaisesExactly`, `Safety.AttentionMeansFailedVerification`). If no process dies that happens
  first at the configured attempt; a death between a successful cleanup and its verdict can put it off
  (`Stranded.FirstRaiseExactly`, `Limits.DeathPutsOffRaise`). `Repair.dfy` is the
  variant that goes through `cleanup_failed`; with it the same number of passes always ends in a terminal state
  (`Repair.RepairedConverges`).
- Not every restart gets past its reconciliation (phase-03-experiment-engine.md:634). It can exactly when no
  experiment that is taken into cleanup is of an unknown scenario, or is not proved to be owned with at most one
  attempt left (`Blocked.ObstructsExactly`, `Blocked.RestartExactly`). Otherwise no tick ever completes, no
  cancellation is taken up, and nothing listed behind that row, nor anything scheduled behind it later, is touched
  again (`Blocked.BlockedForever`, reached in `Witnesses.BlockedReached` under any policy).
- One experiment can starve all younger ones. A tick gives its pass to the oldest selectable row with a free lease
  (`Turns.TurnExactly`) and frees the lease even if the pass raises. A row that no pass can end
  (`Starvation.EndlessExactly`: unknown scenario, parameters out of bounds before it begins, or an effect not proved to be
  its own) therefore takes every turn, without any process dying (`Starvation.StarvedForever`, reached in
  `Witnesses.StarvationReached`). An oldest row that can end does come to rest
  (`Leading.ConvergesInTurn`).
- A row left in `verifying` is not re-verified (phase-03-experiment-engine.md:416). Nothing ever touches it again and
  its target accepts no further experiment (`Stranded.StrandedForever`). Some run leaves a row there exactly when the
  coordinator has an observer (`Witnesses.VerifyingReachedExactly`), and then only by a death
  (`Stranded.OnlyDeathStrands`) such as one between the last observation and the verdict
  (`Stranded.DeathBeforeVerdictStrands`).
- Cancelling a row in `preflight` raises instead of cancelling it (phase-03-experiment-engine.md:360). A drain can
  complete exactly when there is no such request (`Drain.DrainCompletesExactly`); while one is first in line every tick
  of a supervisor past its restart raises and changes nothing (`Drain.PreflightCancelBlocksTicks`, reached in
  `Witnesses.PreflightCancelReached`).
- A cancelled experiment can end as `passed` (phase-03-experiment-engine.md:249), but only if a process dies between
  two adjacent commits (`Cancellation.CancelledNeverPasses`, `Cancellation.PassAttributes`). From then on it never ends as
  cancelled (`Lasting.ForgottenForever`, reached in `Witnesses.UnmarkedReached`); which of the two ends is possible is
  decided exactly by what the row remembers (`Lasting.EndDecidedByMemory`).
- `passed` does not mean that the experiment ran to its deadline (phase-03-experiment-engine.md:248): the three possible
  histories are `Outcomes.PassedOrigins`, and the second does occur (`Outcomes.UncertainInjectionPasses`), with no look at
  the deadline before the injection.
- A failed `after` observation changes nothing (phase-03-experiment-engine.md:387): no observation ever does
  (`Transparency.ObservationTransparent`).
- `transition` trusts the revision its caller passes: with the revision of a row the caller does not hold it can record
  an origin the row was never moved from (`Sessions.ForeignRevisionCanLie`). No caller in the repository does that.

## Model

| member | source | states |
|---|---|---|
| `Lifecycle.TerminalMeansNoExit` | src/chaos_agent/domain/experiment.py:47-84 | the four states called terminal are exactly those without an outgoing edge |
| `Edges.GraphSplits` | src/chaos_agent/domain/experiment.py:55-84 | the graph is the edges experiments take and four more |
| `Edges.EveryRunTakes` | src/chaos_agent/application/coordinator.py:54-295 | in every run every experiment moves along the former alone; preflight to cancelled, active to cleaning_up, cleanup_failed to operator_attention and verifying to failed are never taken |
| `Lifecycle.CalculateExpiry` | src/chaos_agent/domain/experiment.py:155-160 | a deadline exists exactly for durations of 1 to 3600 seconds; it is the creation time plus the duration, within the hour |
| `Rows.SwapKeepsLog` | src/chaos_agent/adapters/persistence/repositories.py:86-118 | a successful compare-and-swap keeps the audit log consistent if and only if the state it was asked from is the stored one |
| `Rows.ReplayYieldsRow` | src/chaos_agent/adapters/persistence/repositories.py:103-118 | replaying a consistent audit log gives back the row's state and revision |
| `Rows.MaxAttempt` | src/chaos_agent/adapters/persistence/repositories.py:236-247 | the highest attempt number so far: an upper bound that is attained |
| `Rows.MaxSequence` | src/chaos_agent/adapters/persistence/repositories.py:356-363 | the highest sequence number of a phase: an upper bound that is attained |
| `Process.HighestAttempt` | src/chaos_agent/adapters/persistence/repositories.py:236-247 | the scan over an experiment's attempts finds that maximum |
| `Process.HighestSequence` | src/chaos_agent/adapters/persistence/repositories.py:356-363 | the scan over the observations of one phase finds that maximum |
| `Process.CompareAndSwap` | src/chaos_agent/adapters/persistence/repositories.py:86-118 | an edge outside the graph is refused, a stale revision conflicts, otherwise state, revision and one audit entry change together |
| `Process.Agent.Transition` | src/chaos_agent/adapters/persistence/repositories.py:77-118 | the pending row of one experiment moves as the swap says, and nothing else in the session changes |
| `Process.Agent.Commit` | src/chaos_agent/application/coordinator.py:171-171 | either the process dies and nothing pending is durable, or all of it is, at once |
| `Process.Agent.CommitRow` | src/chaos_agent/application/coordinator.py:240-240 | the same, seen from the one experiment with pending changes: its history gains at most one durable row |
| `Process.Agent.RecordAttempt` | src/chaos_agent/adapters/persistence/repositories.py:206-234 | a new attempt number is appended; a number already used undoes everything pending |
| `Process.Agent.NextAttemptNumber` | src/chaos_agent/adapters/persistence/repositories.py:236-247 | one more than the highest attempt number recorded |
| `Process.Agent.NextObservationSequence` | src/chaos_agent/adapters/persistence/repositories.py:356-363 | one more than the highest sequence number of that phase |
| `Process.Agent.ListActive` | src/chaos_agent/adapters/persistence/repositories.py:262-273 | the experiments that are not over, all of them, in listing order |
| `Process.Agent.OldestCandidate` | src/chaos_agent/adapters/persistence/repositories.py:127-147 | the first experiment in listing order that is selectable with a free lease, or none if there is none |
| `Process.Agent.ClaimNext` | src/chaos_agent/adapters/persistence/repositories.py:123-174 | that experiment, and no other, gets the caller as owner until now plus the lease |
| `Process.Agent.RenewLease` | src/chaos_agent/adapters/persistence/repositories.py:176-190 | succeeds exactly for the owner and then only moves the lease's end |
| `Process.Agent.ReleaseLease` | src/chaos_agent/adapters/persistence/repositories.py:192-204 | succeeds exactly for the owner and then only clears the lease |
| `Process.Agent.PendingControlRequests` | src/chaos_agent/adapters/persistence/repositories.py:249-253 | the positions of exactly the pending requests, oldest first |
| `Process.Agent.CompleteControlRequest` | src/chaos_agent/adapters/persistence/repositories.py:255-260 | one request stops being pending, and no row changes |
| `Process.Agent.Conflicts` | src/chaos_agent/adapters/persistence/models.py:21-26 | a schedule is refused exactly when the id is taken or its target has a live experiment |
| `Process.Agent.Place` | src/chaos_agent/adapters/persistence/repositories.py:146-146 | where a query ordered by creation time and id lists a new experiment |
| `Process.Agent.Schedule` | src/chaos_agent/adapters/persistence/repositories.py:35-75 | does what `ScheduleIn` says, which `Intake.ScheduledExactly` states field by field: adds one planned experiment, or changes nothing when duration, id or target refuse it |
| `Process.Agent.RequestControl` | src/chaos_agent/adapters/persistence/repositories.py:293-316 | queues one request per idempotency key, for known experiments only |
| `Intake.ScheduledExactly` | src/chaos_agent/adapters/persistence/repositories.py:35-75 | a schedule succeeds exactly for 1 to 3600 seconds, a new id and a target without a live experiment; the new row has the operation's kind, parameters, target, creation time, and a deadline that many seconds later, and nothing else changes |
| `Intake.EveryRowAsScheduled` | src/chaos_agent/adapters/persistence/repositories.py:40-70 | in every run every experiment has kind, parameters, target, creation and deadline of a schedule of its id, and its log begins with that scheduler's entry |
| `Intake.AskedExactly` | src/chaos_agent/adapters/persistence/repositories.py:293-316 | a request is queued exactly for a known experiment and a key never used, with its own fields; asking again with the key changes nothing |
| `Intake.EveryRequestKnown` | src/chaos_agent/adapters/persistence/models.py:95-104 | in every run request keys are distinct, every request names a known experiment and was asked for as it stands |
| `Intake.EveryEntrySigned` | src/chaos_agent/application/supervisor.py:73-88 | in every run each audit entry is signed by the coordinator's actor, except the first, and the aborts, each signed by somebody who asked to cancel that experiment |
| `Evidence.DurationsExactly` | src/chaos_agent/application/scenarios/cpu_pressure.py:18-45 | a duration can be asked of a scenario exactly up to that scenario's maximum, which never exceeds the limit of every experiment |
| `Evidence.OnlyOwnProof` | src/chaos_agent/application/scenarios/apache_stop.py:56-74 | the context one scenario leaves authorizes no other scenario's cleanup, and neither does an empty or absent one |
| `Evidence.VerdictsFit` | src/chaos_agent/application/scenarios/cpu_pressure.py:66-105 | no answer confirms an effect and reports it gone; for Apache and disk one of the two always holds, a foreign CPU load is neither |
| `Evidence.BaselineLeavesRoom` | src/chaos_agent/application/scenarios/disk_pressure.py:50-63 | a baseline that lets a scenario begin shows no effect, and leaves the storage reserve after the whole allocation |
| `ScenarioLaws.ApacheInjects` | src/chaos_agent/application/scenarios/apache_stop.py:50-59 | the injection succeeds exactly if the reply says inactive and changed; a stop that somebody else made is no proof and raises |
| `ScenarioLaws.CpuInjects` | src/chaos_agent/application/scenarios/cpu_pressure.py:66-74 | the injection succeeds exactly if the reply says active and owned, with its own ownership entry |
| `ScenarioLaws.DiskInjects` | src/chaos_agent/application/scenarios/disk_pressure.py:65-73 | the injection succeeds exactly if the reply says owned and active, with its own ownership entry |
| `ScenarioLaws.BaselinesExactly` | src/chaos_agent/application/scenarios/disk_pressure.py:50-63 | which reading lets each scenario begin, field by field |
| `ScenarioLaws.EffectsExactly` | src/chaos_agent/application/scenarios/cpu_pressure.py:76-83 | which reading confirms the effect of each scenario |
| `ScenarioLaws.OwnedCleanupsExactly` | src/chaos_agent/application/scenarios/apache_stop.py:70-81 | with the ownership entry one restoring call is made and which reading counts as cleaned |
| `ScenarioLaws.UnownedCleanupsRefuse` | src/chaos_agent/application/scenarios/apache_stop.py:73-74 | without it no call is made and the cleanup fails |
| `ScenarioLaws.VerificationsExactly` | src/chaos_agent/application/scenarios/cpu_pressure.py:96-105 | what each verification calls, with or without the entry, and which reading verifies |
| `ScenarioLaws.FaultsRaise` | src/chaos_agent/application/scenarios/cpu_pressure.py:66-105 | a control port that raises raises through every operation that reaches it |
| `ScenarioLaws.CpuParameters` | src/chaos_agent/application/scenarios/cpu_pressure.py:12-24 | workers 1 to 8 and 10 to 80 percent, independently of each other and of the duration |
| `ScenarioLaws.DiskParameters` | src/chaos_agent/application/scenarios/disk_pressure.py:12-26 | allocation up to 4096 and chunk up to 64, the chunk within the allocation, independently of the duration |
| `Coordinator.Scenario.Inject` | src/chaos_agent/application/scenarios/cpu_pressure.py:66-74 | one call, recorded before it is made; proof and context only on a verified effect, which `ScenarioLaws.ApacheInjects`, `CpuInjects` and `DiskInjects` read off the reply |
| `Coordinator.Scenario.GatedRestore` | src/chaos_agent/application/scenarios/disk_pressure.py:86-97 | without the ownership entry nothing is called and the answer is failure |
| `Coordinator.Scenario.VerifyCleanup` | src/chaos_agent/application/scenarios/cpu_pressure.py:96-105 | CPU stops again without a gate, disk repeats its gated cleanup, Apache only looks |
| `Coordinator.ExperimentCoordinator.Observe` | src/chaos_agent/application/coordinator.py:297-310 | does what `CoordinatorSpec.Observe` says, which `Sightings.ObserveRecords` states of the durable row: the observer's answer under the next number of its phase, committed |
| `Coordinator.ExperimentCoordinator.Prepare` | src/chaos_agent/application/coordinator.py:118-172 | both preflights in order, each refusal durable as failed, success durable as injecting |
| `Coordinator.ExperimentCoordinator.Inject` | src/chaos_agent/application/coordinator.py:174-212 | active with its context durable, or whatever was raised ends in cleaning_up |
| `Coordinator.ExperimentCoordinator.AttemptCleanup` | src/chaos_agent/application/coordinator.py:225-240 | one numbered, committed attempt per cleanup call, however the call ends |
| `Coordinator.ExperimentCoordinator.Cleanup` | src/chaos_agent/application/coordinator.py:214-295 | the whole new state of a cleanup pass: the mark, the attempt, and verdict, retry or the refused give-up; at which attempt is `Limits.FailureRaisesExactly` |
| `Coordinator.ExperimentCoordinator.RunOnce` | src/chaos_agent/application/coordinator.py:54-116 | the whole new state of one pass over an experiment, including where it raises or dies, with every other experiment untouched |
| `StepLaws.PrepareExactly` | src/chaos_agent/application/coordinator.py:118-172 | for a process that lives: injecting, failed or an exception exactly by the parameters, the scenario's own preflight and the gate, asked in this order |
| `StepLaws.InjectExactly` | src/chaos_agent/application/coordinator.py:174-212 | active exactly if the effect is proved and then seen, cleaning_up otherwise |
| `StepLaws.ContextSavedFirst` | src/chaos_agent/application/coordinator.py:184-188 | the cleanup context is durable exactly if the effect was proved and the process lived to the commit that follows, whatever happens after it |
| `StepLaws.AttemptExactly` | src/chaos_agent/application/coordinator.py:225-240 | the recorded attempt: next number, success exactly if owned and answered gone, whether it was answered, and the two readings of the clock |
| `StepLaws.RecordExactly` | src/chaos_agent/adapters/persistence/repositories.py:206-234 | a new attempt number is appended and a used one loses everything pending |
| `StepLaws.VerdictExactly` | src/chaos_agent/application/coordinator.py:262-295 | operator_attention exactly if the verification did not show the effect gone, an exception included; else cancelled or passed by the mark; outcome and attention accordingly |
| `Sightings.ObserveRecords` | src/chaos_agent/application/coordinator.py:297-310 | an observation that returns leaves durably the old ones plus one with the phase, the next number and the observer's answer, or the failure category without one |
| `Sightings.PassReports` | src/chaos_agent/application/coordinator.py:54-116 | what a pass adds to the observations, cut anywhere, are the observer's answers in order; a pass that returns has asked exactly once before an injection, while active, and after a cleanup |
| `Supervision.Supervisor.Reconcile` | src/chaos_agent/application/supervisor.py:30-55 | the loop over the live rows equals row-by-row reconciliation, and leaves nothing pending unless the process dies |
| `Supervision.Supervisor.Cancel` | src/chaos_agent/application/supervisor.py:66-89 | what one cancellation does to the row in each state |
| `Supervision.Supervisor.Drain` | src/chaos_agent/application/supervisor.py:63-91 | the loop over the requests that were pending at its start equals serving every request in turn |
| `Supervision.Supervisor.RunClaim` | src/chaos_agent/application/supervisor.py:95-111 | commit the claim, renew, run, and give the lease back and commit whether the pass returned or raised; what each commit makes durable is `Tenure.LeaseThroughPass` |
| `Supervision.Supervisor.RunOnce` | src/chaos_agent/application/supervisor.py:57-112 | one tick over the whole database, and nothing is pending after it unless the process died |
| `Tenure.LeaseThroughPass` | src/chaos_agent/application/supervisor.py:95-111 | the coordinator is reached only with a durable lease that ends that many seconds after the second look at the clock; it stays durable wherever the process dies in the pass, and is gone after it; the pass's exception is passed on |
| `Tenure.TakenOverAfterDeath` | src/chaos_agent/adapters/persistence/repositories.py:141-147 | after a death in the pass another instance can claim the row exactly when that renewed lease has run out and the state is selectable |
| `Tenure.LeasesOfTheDead` | src/chaos_agent/application/supervisor.py:107-111 | in every run every lease left in the database between ticks is one of a process that is dead |
| `Tenure.ReplacedByFresh` | src/chaos_agent/application/supervisor.py:20-28 | a restart and a death lose nothing durable, and the process that follows has to reconcile and finds no lease in its own name |
| `Turns.TickReturns` | src/chaos_agent/application/supervisor.py:57-112 | a tick that returns hands back what the restart handed back and then the state its one pass left durable |
| `Turns.ReconciledOnce` | src/chaos_agent/application/supervisor.py:60-62 | a process reconciles until it has got through once and never again |
| `Deployment.System.TickOnce` | src/chaos_agent/runtime.py:197-207 | an exception that leaves a tick is swallowed and loses nothing; a dead process is replaced and loses exactly what was pending |
| `Deployment.Execute` | src/chaos_agent/runtime.py:320-321 | running any sequence of schedules, requests, ticks and restarts step by step gives the world of `SupervisorSpec.Run`, so every theorem about runs is about this program |
| `CoordinatorFollows.StepOn` | src/chaos_agent/application/coordinator.py:95-105 | one committed transition from a clean row keeps the history on the protocol |
| `CleanupFollows.InjectOn` | src/chaos_agent/application/coordinator.py:174-212 | an injection cut at any point keeps the history on the protocol and never raises |
| `CleanupFollows.ConcludeOn` | src/chaos_agent/application/coordinator.py:262-295 | so does the end of a cleanup, which never raises once the cleanup has succeeded |
| `CleanupFollows.RunOnceOn` | src/chaos_agent/application/coordinator.py:54-116 | so does a whole pass over any row the supervisor can hand over; it ends durably in the state it returns, and raises only before the injection or at exhausted attempts |
| `SupervisorFollows.TickValid` | src/chaos_agent/application/supervisor.py:57-112 | a tick that returns, raises or dies continues every experiment's history on the protocol |
| `SupervisorFollows.EveryRunFollows` | src/chaos_agent/application/supervisor.py:57-112 | so does every run of any number of successive supervisor processes |
| `Invariants.PathSound` | src/chaos_agent/adapters/persistence/repositories.py:91-118 | on every history the log is consistent, attempts are numbered 1..n, and cleanup_failed was entered at most once per attempt |
| `Invariants.PathKeepsIdentity` | src/chaos_agent/adapters/persistence/repositories.py:40-54 | kind, parameters, target, creation and deadline never change |
| `Safety.AtMostOnceGatedInjection` | src/chaos_agent/application/coordinator.py:59-62 | inject is called at most once per experiment, and only straight after both preflights passed in the same pass |
| `Safety.NoFalseSuccess` | src/chaos_agent/application/coordinator.py:262-295 | once inject was called, a terminal row is passed, cancelled or operator_attention, and for the first two a later cleanup and a still later verification both succeeded |
| `Safety.OnlyProvenEffectsUndone` | src/chaos_agent/application/scenarios/cpu_pressure.py:85-105 | every restoring call follows a proved injection and is made only while the ownership entry is durable, the ungated CPU stop included |
| `Safety.EveryProofShown` | src/chaos_agent/application/scenarios/apache_stop.py:50-59 | every proof in a history answers an inject call with a reading that shows the effect as the agent's own doing |
| `Safety.LostNeverLooksClean` | src/chaos_agent/application/coordinator.py:179-212 | an injection whose context was never saved never reaches verifying, passed or cancelled, for any number of retries and restarts |
| `Safety.WriteAheadIntent` | src/chaos_agent/application/coordinator.py:160-178 | at every call of inject, injecting was already durable; at every cleanup, verification and restoring call, cleaning_up was |
| `Safety.ActiveHasContext` | src/chaos_agent/application/coordinator.py:184-199 | an active, expired or cancelling row has a durable cleanup context with its ownership entry |
| `Safety.BoundedLifecycle` | src/chaos_agent/application/coordinator.py:241-261 | at most limit-1 entries into cleanup_failed and a revision of at most 2*limit+5 |
| `Safety.AuditRefinesRow` | src/chaos_agent/adapters/persistence/repositories.py:77-118 | in every durable condition the log is numbered 1..revision+1, chained and legal, and replays to the row |
| `Safety.AttentionMeansFailedVerification` | src/chaos_agent/application/coordinator.py:242-252 | operator_attention is reached only by a verification that did not succeed, never by exhausted attempts |
| `Safety.TerminalIsFinal` | src/chaos_agent/domain/experiment.py:149-152 | no history leaves a terminal state, and nothing is called any more |
| `Outcomes.PassedOrigins` | src/chaos_agent/application/coordinator.py:277-294 | passed means expired after being active, never confirmed active, or cancelled with a death in the attribution gap; no other history |
| `Outcomes.PassedOriginsInRun` | src/chaos_agent/application/coordinator.py:277-294 | when processes die only at port calls, passed means exactly one of the first two |
| `Outcomes.UncertainInjectionPasses` | src/chaos_agent/application/coordinator.py:186-212 | an effect proved at injection but not confirmed is cleaned up and passes in the same pass, whatever the clock says |
| `Outcomes.EveryEntryJustified` | src/chaos_agent/adapters/persistence/repositories.py:103-118 | every audit entry carries the reason of its edge, and the last one names the verdict |
| `Outcomes.OutcomeMatchesState` | src/chaos_agent/application/coordinator.py:284-294 | under any crash a verdict's row records its own state as outcome, a row that got no verdict (failed, or cancelled before it began) records none, and a reason for attention stands exactly beside operator_attention |
| `Runs.EveryRunIsSafe` | src/chaos_agent/application/supervisor.py:57-112 | for every experiment in every run with crashes anywhere: gated injection at most once, write-ahead, proven restoring, every proof read off an answer, no false success, lost injections never clean, bounded retries and revision, replayable log, ordered observations |
| `Runs.EveryRunOneLivePerTarget` | src/chaos_agent/adapters/persistence/models.py:21-26 | in every run each target has at most one experiment that is not over |
| `Runs.EveryRunListsInOrder` | src/chaos_agent/adapters/persistence/repositories.py:146-146 | in every run the listing holds every experiment once, ordered by creation time, then id |
| `Runs.ClaimTakesOldest` | src/chaos_agent/adapters/persistence/repositories.py:123-147 | a claim finds a candidate exactly when there is one, and takes the oldest |
| `Timeline.ObservationTimeline` | src/chaos_agent/application/coordinator.py:297-310 | observations read before* during* after*, each phase numbered 1..n without gaps, and so are the attempts, whatever crashed |
| `Restart.RestartNeverInjects` | src/chaos_agent/application/supervisor.py:34-54 | a restart makes no inject call, from any state any process left behind |
| `Restart.RestartMatrix` | src/chaos_agent/application/supervisor.py:46-54 | planned, preflight, active, verifying and finished rows are left alone; a row of an unknown scenario raises; every other row ends, or has exactly one more attempt recorded and is retried later below the limit and raises at it |
| `Cancellation.CancelledNeverPasses` | src/chaos_agent/application/coordinator.py:109-115 | a history in which the mark follows directly on every cleanup entry of a cancelled row never ends as passed |
| `Cancellation.PassAttributes` | src/chaos_agent/application/coordinator.py:98-115 | a pass leaves the mark missing only by dying at a commit |
| `Cancellation.CancelledNeverPassesInRun` | src/chaos_agent/application/coordinator.py:222-224 | in runs whose processes die only at port calls, a cancelled experiment never ends as passed, across retries and restarts |
| `Cancellation.CancelledWasAsked` | src/chaos_agent/application/supervisor.py:73-88 | under any crash, cancelled means the log holds a cancellation request or is exactly planned, cancelled |
| `Cancellation.LeftOpenPasses` | src/chaos_agent/application/coordinator.py:109-115 | with the mark missing, one clean cleanup pass ends a cancelled experiment as passed |
| `Convergence.FailedAttemptEnds` | src/chaos_agent/application/coordinator.py:241-261 | a failed attempt raises if and only if it was the last allowed one, and then leaves the row in cleaning_up with the attempt recorded |
| `Limits.FailureRaisesExactly` | src/chaos_agent/application/coordinator.py:241-261 | with n attempts configured, or one for any number below one, a failed attempt raises exactly from the n-th on |
| `Limits.PassRaisesExactly` | src/chaos_agent/application/coordinator.py:51-116 | from any state and with any crash, a pass raises out of the cleanup exactly when it recorded a failed attempt that was the n-th or a later one |
| `Limits.RetriesConfigured` | src/chaos_agent/application/coordinator.py:241-261 | in every run at most n-1 moves into cleanup_failed and 2n+5 transitions |
| `Stranded.FirstRaiseExactly` | src/chaos_agent/application/coordinator.py:225-252 | in every run the attempt at which the coordinator first raises is the n-th exactly if the n-th failed; it did if no process dies |
| `Limits.DeathPutsOffRaise` | src/chaos_agent/application/coordinator.py:232-276 | a death between a successful cleanup and its verdict puts the first raise off to the attempt after the n-th |
| `Convergence.ActiveUntilDeadline` | src/chaos_agent/application/coordinator.py:67-81 | before its deadline a pass only observes an active row; from the deadline on no pass that returns leaves it active |
| `Convergence.PassProgress` | src/chaos_agent/application/coordinator.py:54-116 | past the deadline a pass ends the experiment, records one more failed attempt below the limit, or finds the attempts exhausted |
| `Convergence.ConvergesAfterExpiry` | src/chaos_agent/application/coordinator.py:225-261 | past the deadline, as many passes as there are attempts, none cut short, end in a terminal state or in cleaning_up with the attempts exhausted |
| `Convergence.InvalidParametersStay` | src/chaos_agent/application/coordinator.py:119-127 | with parameters out of bounds a pass raises and leaves the row in preflight; `Starvation.EndlessForever` says it of every run |
| `Repair.PatchIsRepair` | src/chaos_agent/application/coordinator.py:242-252 | continuing where the coordinator raises is the same as replacing its give-up step |
| `Repair.GivingUpEnds` | src/chaos_agent/application/coordinator.py:242-252 | going through cleanup_failed never raises, ends in operator_attention with its reason, and the log replays |
| `Repair.RepairedConverges` | src/chaos_agent/application/coordinator.py:225-261 | with that step the same number of passes always ends in a terminal state |
| `Transparency.PassTransparent` | src/chaos_agent/application/coordinator.py:54-116 | a pass with any observer and one with any other or none end alike |
| `Transparency.ObservationTransparent` | src/chaos_agent/application/coordinator.py:297-310 | any number of crash-free passes give the same states, log, attempts, outcome and port calls whatever is observed |
| `Leases.LeaseExclusive` | src/chaos_agent/adapters/persistence/repositories.py:123-204 | an instance granted a lease for L seconds, by a claim or a renewal, and not releasing it stays owner through L, and what others do meanwhile changes nothing |
| `Leases.TakenOverExactlyWhenFree` | src/chaos_agent/adapters/persistence/repositories.py:141-147 | another instance can take the row exactly when it is selectable and more than L has passed since the last grant |
| `Drain.DrainEffect` | src/chaos_agent/application/supervisor.py:63-91 | unless a cancelled row is in preflight, a drain leaves nothing pending, turns exactly the cancelled planned and active rows, each by one transition, and leaves every other row as it was |
| `Drain.DrainOrderIrrelevant` | src/chaos_agent/application/supervisor.py:63-91 | the states it leaves depend on which experiments were cancelled, not on order or duplicates |
| `Drain.DrainCompletesOnlyWithout` | src/chaos_agent/application/supervisor.py:81-88 | with a cancelled row in preflight the drain never completes |
| `Drain.PreflightCancelBlocksTicks` | src/chaos_agent/application/supervisor.py:81-88 | while such a request is first in line, every tick raises and changes nothing durable |
| `Drain.DrainCompletesExactly` | src/chaos_agent/application/supervisor.py:63-91 | some process gets through the drain exactly when no row in preflight has a pending cancellation |
| `Blocked.ObstructedRow` | src/chaos_agent/application/supervisor.py:34-54 | a row that obstructs is never reconciled, whatever is answered and wherever the process dies, and obstructs the next restart too |
| `Blocked.ObstructsExactly` | src/chaos_agent/application/supervisor.py:34-54 | some answers let the reconciliation of a row return exactly unless it needs cleanup and is of an unknown scenario, or is not owned with at most one attempt left |
| `Blocked.RestartExactly` | src/chaos_agent/application/supervisor.py:30-62 | some answers let the restart of a whole database through exactly when no experiment obstructs it |
| `Blocked.TickBlocked` | src/chaos_agent/application/supervisor.py:57-62 | after a restart with such a row in the way no tick completes, no request is served and nothing listed behind it is touched |
| `Blocked.BlockedForever` | src/chaos_agent/application/supervisor.py:57-112 | and so it stays whatever is scheduled, asked, answered or restarted; what is scheduled behind it never starts |
| `Turns.TurnExactly` | src/chaos_agent/adapters/persistence/repositories.py:127-147 | a tick gives its pass to an experiment exactly when it gets as far as the claim, the row is selectable with a free lease, and no older one is |
| `Turns.TurnIsAll` | src/chaos_agent/application/supervisor.py:92-111 | after the drain a tick changes that experiment by its claimed pass and no other experiment at all |
| `Starvation.EndlessExactly` | src/chaos_agent/application/coordinator.py:54-116 | some answers let one pass end a claimable row exactly unless its scenario is unknown, its parameters are out of bounds before it begins, or its effect is not proved to be its own |
| `Starvation.EndlessForever` | src/chaos_agent/application/supervisor.py:57-112 | such a row is never over, in any run of any number of processes, unless it is cancelled before it begins |
| `Starvation.StarvedForever` | src/chaos_agent/application/supervisor.py:107-111 | behind an oldest row of that kind no port call is ever made for any other experiment, waiting or scheduled later, although no process dies |
| `Leading.ConvergesInTurn` | src/chaos_agent/application/supervisor.py:92-111 | past its deadline the experiment first in line is over, or out of attempts in cleaning_up, within as many ticks as it has cleanup attempts |
| `Stranded.StrandedForever` | src/chaos_agent/application/supervisor.py:46-52 | a row in verifying is never touched again and its target accepts no further experiment |
| `Stranded.DeathBeforeVerdictStrands` | src/chaos_agent/application/coordinator.py:276-294 | with an observer, a death between the last observation and the verdict leaves an owned row there |
| `Stranded.VerifyingExactlyWhenObserved` | src/chaos_agent/application/coordinator.py:262-310 | some pass over an owned row in cleaning_up leaves it in verifying exactly when there is an observer |
| `Stranded.OnlyDeathStrands` | src/chaos_agent/application/coordinator.py:54-116 | in a run in which no process dies every experiment is over or in a state the claim query selects; whether its turn comes is `Turns.TurnExactly` |
| `Lasting.UnobservedNeverVerifies` | src/chaos_agent/application/coordinator.py:297-310 | without an observer no row of any run is ever in verifying |
| `Lasting.ForgottenForever` | src/chaos_agent/application/coordinator.py:109-115 | an experiment whose cancellation was not remembered when its cleanup began is never cancelled, in any continuation of the run |
| `Lasting.EndDecidedByMemory` | src/chaos_agent/application/coordinator.py:277-284 | some answers end a pass over an owned row as cancelled exactly when the row remembers a cancellation, and as passed exactly when it does not |
| `Witnesses.BlockedReached` | src/chaos_agent/application/coordinator.py:176-212 | under any policy a run with a crash during inject and as many restarts as attempts but one blocks every later restart |
| `Witnesses.StarvationReached` | src/chaos_agent/application/coordinator.py:119-127 | an experiment with parameters out of bounds, ticked once, starves every younger one |
| `Witnesses.PreflightCancelReached` | src/chaos_agent/application/supervisor.py:81-88 | cancelling that experiment makes every later tick raise and change nothing |
| `Witnesses.VerifyingReachedExactly` | src/chaos_agent/application/coordinator.py:276-294 | some run leaves some row in verifying exactly under a policy with an observer |
| `Witnesses.UnmarkedReached` | src/chaos_agent/application/coordinator.py:98-115 | a run reaches a cancelled row whose cancellation nothing remembers |
| `Sessions.LinearizableTransition` | src/chaos_agent/adapters/persistence/repositories.py:86-118 | however stale the cached rows, a transition that succeeds starts from the state in the database, takes an edge of the graph and records that state as its origin |
| `Sessions.ChangesExactly` | src/chaos_agent/adapters/persistence/repositories.py:86-118 | a transition succeeds exactly if the session may write, the row in the database has the edge and the cached copy, if any, has its revision; leases have no part in it |
| `Sessions.CreatesExactly` | src/chaos_agent/adapters/persistence/repositories.py:35-75 | an experiment is created exactly if the session may write, the id is new and the target free as the session sees them |
| `Sessions.WritesShowOnCommit` | src/chaos_agent/application/coordinator.py:171-171 | a write is seen by its own session alone until that commits, and a rollback leaves no trace of it |
| `Sessions.EveryInterleavingConsistent` | src/chaos_agent/adapters/persistence/repositories.py:77-118 | under any interleaving of any sessions, committed and uncommitted logs are consistent, each target has one live experiment, and no cache is ahead of the database |
| `Sessions.OnlyOneWins` | src/chaos_agent/adapters/persistence/repositories.py:91-105 | of two sessions holding the same row, the second's transition fails once the first has committed |
| `Sessions.ForeignRevisionCanLie` | src/chaos_agent/adapters/persistence/repositories.py:86-118 | with a revision that is not that of the held row, a transition can succeed and falsify the log |
| `PreflightPolicy.MismatchExactlyUnlessExpected` | src/chaos_agent/domain/target.py:197-214 | an identity is refused exactly unless it is the one expected target, and production is refused as such |
| `PreflightPolicy.PassExactlyWhenSatisfied` | src/chaos_agent/application/preflight.py:61-228 | the preflight passes exactly when every requirement on client, files, helper, identity, Apache, reserves, load and website holds |
| `PreflightPolicy.FailuresNamed` | src/chaos_agent/application/preflight.py:230-254 | from answers that satisfy the policy, each call that fails ends the preflight at its own check under its own name |
| `PreflightPolicy.WrongAnswersNamed` | src/chaos_agent/application/preflight.py:279-294 | so does an answer of the wrong kind, as a protocol failure, and a helper of another major version |
| `PreflightPolicy.IdentitiesNamed` | src/chaos_agent/domain/target.py:197-214 | so does an identity that differs in one field, at either of the two checks, with the code of that field |
| `PreflightPolicy.ReservesNamed` | src/chaos_agent/application/preflight.py:147-191 | so does each fact of the target below its reserve |
| `PreflightPolicy.WebsiteNamed` | src/chaos_agent/application/preflight.py:193-227 | so does each failure of the website |
| `PreflightPolicy.CallsBelong` | src/chaos_agent/application/preflight.py:61-228 | a preflight that stops at a check has made exactly the calls of the checks up to it, each once |
| `PreflightPolicy.ReportsAreValid` | src/chaos_agent/domain/preflight.py:65-78 | every returned report satisfies the report rules, and its category is absent exactly when it passed |
| `PreflightPolicy.ReportTellsWhereItStopped` | src/chaos_agent/application/preflight.py:317-346 | the number of passed checks in a report is the position of the check that ended it |
| `PreflightPolicy.ErrorsAreTechnical` | src/chaos_agent/application/preflight.py:230-254 | error is reserved for the client, the files, transport failures other than refused privilege, and wrong answer types; all else is a refusal |
| `PreflightService.Service.VerifyTargetIdentity` | src/chaos_agent/domain/target.py:197-214 | the chain of comparisons finds the first mismatch |
| `PreflightService.Service.MakeReport` | src/chaos_agent/application/preflight.py:369-397 | a report is returned exactly if it satisfies the report rules |
| `PreflightService.Service.Duration` | src/chaos_agent/application/preflight.py:364-367 | the elapsed milliseconds rounded half to even and kept within 0 and 60000; 0 and no look at the clock without a start |
| `PreflightService.Service.Failure` | src/chaos_agent/application/preflight.py:317-346 | the failed check, then every later one skipped, each exactly once and in order |
| `PreflightService.Service.Run` | src/chaos_agent/application/preflight.py:61-228 | for all answers: pass^11 or pass^k fail skip^(10-k) with the verdict of the first check that does not hold, and exactly the calls up to that check |
| `PreflightService.Service.Gate` | src/chaos_agent/application/production.py:82-86 | the gate opens exactly when the whole policy is satisfied, raises exactly when the first check that does not hold got no answer or the clock ran back, and refuses otherwise |

## Left out

- Other processes' writes during a tick: scheduling and control requests happen between ticks in the runs; `Sessions.dfy` covers interleavings at the level of the repository.
- Sessions.EveryInterleavingConsistent: models sessions on values, not as objects, and serializes writers, so a writer that would wait for the database lock is one that does not run yet.
- A commit that raises instead of succeeding or losing the process ("database is locked"), and the row objects' refresh after a commit, which reads back what was committed.
- The three scenario classes are one class that branches on the scenario, so that the coordinator can hold any of them.
- Leases.LeaseExclusive: is about one row's leases as values, since it quantifies over what many instances do; the claim, renewal and release of one process are methods of `Process.Agent`.
- Timestamps other than creation, deadline and lease: `occurred_at`, `updated_at` and the times of observations are only written, never read.
- The tables of transitions, attempts and observations are held inside the row they are keyed by; only the "cleanup" action kind occurs.
- The listing is kept in the order of the queries' ORDER BY; request order is insertion order.
- Experiment ids, target ids and instance ids are numbers; their formats, time zones and the 36-character check are not modelled.
- Scenario parameters are the three bounded integers; extra or missing keys are not. A scenario other than the three is modelled with any answers and with parameters that are always accepted.
- The cleanup context is the set of its ownership entries; its version and other keys are not modelled.
- Sending a call and its arrival at the target are one step, so a timed-out injection counts as called.
- Preflight messages and log lines; floating point (`load_1m / logical_cpu_count` and durations are computed over the reals); cancellation of the asynchronous calls.
- The HTTP observer, the OpenSSH transport, JSON decoding, settings validation, CLI, API, dashboard, heartbeat and migrations: their results enter as arbitrary port answers.
- The integration outbox: it is not connected to lifecycle transitions.
- `list_history`: a bounded read that nothing in the lifecycle depends on.
- The lease during a long pass: it is renewed once before the pass and not checked again, so exclusivity is stated per lease, not per pass.
