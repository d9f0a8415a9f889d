# agentd, the control plane, in Dafny

`agentd` starts, supervises and records runs of coding agents. This project models the part of it that
has to be right when processes die, stores fail and calls race, and proves what it promises.

- **The run lifecycle** (`StateMachine`, `RunProtocol`, `Daemon`, `DaemonProofs`, `Steps`, `Lifecycle`, `Creations`,
  `Denials`, `Audits`, `Escapes`, `Launches`, `Reboots`, `Scenarios`, `Shortfalls`, `Undisturbed`). Every `await` of the
  orchestrator is a program point at which any other call may run and the daemon may die. `RunProtocol` is one
  run as its lock holder sees it; `Daemon` is any number of coroutines over the shared memory and the disk, with
  crashes that keep only the disk; `Lifecycle` holds the theorems over all executions. Where a promise can fail,
  `Denials`, `Audits`, `Escapes`, `Launches` and `Reboots` say exactly when, and `Shortfalls` has the execution;
  `Undisturbed` has those in which nothing fails.
  A store write lands, is lost, or lands and is still reported as failed, and any await inside a `try` may throw.
  Some fields of `Run` are history that no step reads: `workers`, `drained`, `resultWrites`, `duplicateHit`,
  `lostResult` (the write of the result left nothing), `gaveUp` (after the claim, a failure that no code path
  handles).
- **The orchestrator's code** (`Orchestrator`). The methods that start and finish one leased run, written as
  the source writes them; each statement is shown to be a step of `RunProtocol`.
- **Recovery** (`Recovery`, `Boot`). One boot pass over any store, with any input/output failing; for each run
  it is the boot step of `Daemon`.
- **Supervision** (`Supervisor`, `Signalling`, `BoundedSink`). Timers and signals in milliseconds, and exactly which
  signals are sent; the byte-budgeted sinks.
- **Streams and logs** (`Text`, `Ndjson`, `Framing`, `Cuts`, `Translation`, `Codex`, `Claude`, `EventLog`, `LogLaws`,
  `Appending`, `PlainRecords`, `Ingestion`, `Watching`). Framing with resumable offsets, the normalizers on it, the
  append-only log with its cached index, and the bridge that polls it. `Framing` and `Appending` say of the text
  and of the fields of the records what the code of `Ndjson` and `EventLog` does. `PlainRecords` is a codec that meets
  both laws the theorems about logs ask of JSON.
- **Worktrees** (`Worktrees`, `WorktreeManager`). Ownership over durable records, as steps with crashes, and
  the manager's two calls as code that takes those steps.
- **Algorithms** (`Ulid`, `JsonShape`, `PathContainment`, `ShellQuote`).

In the methods the answers of the disk, of git, of the process table and of the output device are
parameters, so that each contract says what happens for every one of them.

Assumed throughout: one daemon at a time; a rename replaces a file whole; `O_EXCL` creation is atomic; the
promise `handle.completed` resolves; a run id is unknown to callers until `createTask` returns it.

## Where the code and its documentation differ

The model follows the code.

- `packages/core/src/state-machine.ts:9-12` says nothing leads into `SUCCEEDED` except `VALIDATING`; the table
  also has `ORPHANED` (`SuccessComesFromEvidence`). No daemon path takes that edge (`SuccessIsNeverInferred`).
- `apps/agentd/src/orchestrator.ts:964-974` says a terminal state promises a result. The return values of
  `writeResult` are not looked at, so of a run that was started this holds exactly when that write was not lost
  (`TerminalMeansResult`; it can be, `ResultLostThenTerminal`), and always when writes land or the daemon dies
  (`TerminalRunsHaveTheirResult`). The denial path writes `FAILED` first, so a denied run can be left without
  result by a crash alone (`DeniedThenCrashed`), and when its writes land, exactly by that
  (`DeniedResultMissingIff`).
- `apps/agentd/src/orchestrator.ts:1077-1089` says `shutdown` leaves every run durably terminal. A failed read
  or write in a finalisation leaves that run to the next boot (`ShutdownLeavesNothingOpen`,
  `GivenUpThenShutDown`); if writes land every run it started is terminal (`ShutdownFinishesEveryRun`).
- `apps/agentd/src/orchestrator.ts:1050-1052` says cancelRun does not answer RUNNING for a cancel that was
  requested. It answers what it reads, and that is terminal exactly if the finalisation was not given up
  (`CancelAnswersATerminalState`, `CancelAnsweredRunning`).
- The policy decision is described as on the event log before any worker exists
  (`apps/agentd/src/orchestrator.ts:4-8`, `apps/agentd/src/orchestrator.ts:283-289`). A daemon that dies inside
  `createTask` leaves a `QUEUED` run without it, which a later incarnation can launch even if it was denied
  (`AnInterruptedCreationMayBeLaunched`). If the append lands or the daemon dies, that is exactly how a worker
  comes to run without it (`LaunchedUnauditedIff`), and a denied run is open to be started exactly if the daemon
  died before its `FAILED` was on disk (`DeniedIsOpenIff`, `FailedIsNeverStarted`).
- `packages/core/src/run-store.ts:194-201` says a crash inside `create` leaves a directory that recovery can
  recognise as incomplete. It recognises it by failing: that boot does not serve, and no later one does
  (`CanServeIff`, `InterruptedMakingEndsService`).
- `apps/agentd/src/recovery.ts:12-13` says a worker that outlived its daemon is stopped. One that was launched and
  not yet on record is taken for one that never was (`UnrecordedIff`, `UnrecordedIsLeftAlone`,
  `UnrecordedWorkerSurvives`).
- `packages/protocol/src/primitives.ts:47-48` allows a timeout of a year. A timer takes 2147483647 ms at most, and
  turns anything longer into one millisecond (`TimeoutsOnTimeIff`, `LongTimeoutEndsAtOnce`).
- `packages/policy/src/path-containment.ts:99-100` says any error is a denial. For an entry of the denylist the
  answer "not contained" is the permissive one: an entry that is not absolute matches nothing (`CheckPathAccess`).
- `packages/worktrees/src/records.ts:16-19` and `docs/threat-model.md:120-125` say two writers never share a
  working directory. Claims are per exact path, so one may lie below another (`NestedWorktreeGoesToo`).
- `packages/worktrees/src/manager.ts:414` says the record of a failed removal is left open so that it can be
  retried. Once git has dropped the registration no retry gets past the list (`UnregisteredStaysOpen`).
- `packages/core/src/run-store.ts:360-366` says a record is not duplicated by appending it again. If it is on
  disk and its sync was told to have failed, the same process does duplicate it (`SecondRecordAfterUnsure`,
  `IndexAgreesIff`).
- `packages/core/src/run-store.ts:419-420` presents a torn final record as one skipped line. It is glued to the
  next record, and both are lost (`AppendIsReadIffTerminated`).

## Model

| member | source | states |
|---|---|---|
| StateMachine.NeverBackToStart | packages/core/src/state-machine.ts:38-48 | on every path of the table a state that has left QUEUED never returns to it, and PREPARING only directly follows QUEUED |
| StateMachine.PreparedAtMostOnce | packages/core/src/state-machine.ts:38-48 | no path shows PREPARING twice: the table alone allows one preparation in the life of a run |
| StateMachine.SuccessComesFromEvidence | packages/core/src/state-machine.ts:38-48 | SUCCEEDED is only entered from VALIDATING or ORPHANED |
| StateMachine.TerminalIsForever | packages/core/src/state-machine.ts:45-47 | no path leaves a terminal state |
| StateMachine.EnteredFrom | packages/core/src/state-machine.ts:38-48 | the states from which each state is entered; terminal are exactly those nothing follows |
| StateMachine.RecoveryOrphansWhatItMay | packages/core/src/state-machine.ts:89-94 | boot recovery moves exactly the states from which the table allows ORPHANED, to it |
| RunProtocol.RulingsAreDeserved | apps/agentd/src/orchestrator.ts:798-943 | validation is earned exactly by a clean exit; SUCCEEDED is judged exactly when nothing was rejected and the one result is this run's own success; every ruling is a legal transition with an agreeing result |
| RunProtocol.ClaimSteps | apps/agentd/src/orchestrator.ts:437-443 | every answer on the way out of QUEUED keeps the holder's assertion and takes back nothing; a claim made here is this incarnation's |
| RunProtocol.LaunchSteps | apps/agentd/src/orchestrator.ts:445-472 | every answer of preparing and spawning keeps the holder's assertion: at most one worker, launched by this incarnation |
| RunProtocol.RecordSteps | apps/agentd/src/orchestrator.ts:474-498 | every answer of recording the process keeps the holder's assertion: RUNNING only with the pid on record, failure only after the worker's exit |
| RunProtocol.FinalSteps | apps/agentd/src/orchestrator.ts:764-881 | every answer of draining and validating keeps the holder's assertion: the verdict it carries is deserved by what it saw of this run's one worker |
| RunProtocol.ResultSteps | packages/core/src/run-store.ts:471-490 | every answer of writing the result keeps the holder's assertion: no duplicate is met, and the result is the verdict's or lost |
| RunProtocol.TerminalSteps | apps/agentd/src/orchestrator.ts:976-997 | every answer of the last transition keeps the holder's assertion: a terminal state stands beside its own, agreeing result |
| RunProtocol.ExceptionSteps | apps/agentd/src/orchestrator.ts:415-434 | an exception leads to the finally with its assertion kept: an unclaimed run as it was, a claimed one marked as given up, with or without a process when it was being launched |
| RunProtocol.LocalStepOk | apps/agentd/src/orchestrator.ts:403-529 | every answer to every await of the lock holder keeps the assertion of its program point and takes back no outcome, claim or worker |
| RunProtocol.ExitKeepsGood | apps/agentd/src/orchestrator.ts:499-505 | a worker may exit at any moment, in any way, without breaking the holder's assertion |
| RunProtocol.OnlyFailuresGiveUp | apps/agentd/src/orchestrator.ts:764-997 | none of the holder's own checks abandons a run or loses a result: only a failing store or an exception does |
| DaemonProofs.LocalKeepsInv | apps/agentd/src/orchestrator.ts:437-529 | any answered await of any lock holder keeps the invariant of the whole daemon, whatever else is in flight |
| DaemonProofs.RegisterKeepsInv | apps/agentd/src/orchestrator.ts:494-528 | handing the lock from the start to its finalisation, with running and finalizing set together, keeps the invariant |
| DaemonProofs.LockKeepsInv | packages/core/src/run-store.ts:596-604 | creating the lock file where there was none, told or not told to the caller, keeps the invariant, so its creator alone leases the run |
| DaemonProofs.FinalBeginKeepsInv | apps/agentd/src/orchestrator.ts:764-770 | beginning a finalisation on its own worker's exit, and leaving running, keeps the invariant |
| DaemonProofs.ForgetKeepsInv | apps/agentd/src/orchestrator.ts:504-517 | leaving finalizing before the lock is released keeps the invariant |
| DaemonProofs.ReleaseKeepsInv | packages/core/src/run-store.ts:606-622 | releasing the lock at the end, successfully or not, keeps the invariant |
| DaemonProofs.MakeRunKeepsInv | packages/core/src/run-store.ts:207-232 | making the directory of a new run keeps the invariant, whether or not store.create goes on |
| DaemonProofs.MakingKeepsInv | packages/core/src/run-store.ts:234-246 | writing the task and the metadata, or giving up and leaving a directory without state, keeps the invariant |
| DaemonProofs.MakeStateKeepsInv | packages/core/src/run-store.ts:248-260 | writing the state, told or not told to the caller, makes the run and keeps the invariant |
| DaemonProofs.CreateStepKeepsInv | apps/agentd/src/orchestrator.ts:304-343 | every answered await of createTask behind store.create, which holds no lock, keeps the invariant |
| DaemonProofs.CancelRunKeepsInv | apps/agentd/src/orchestrator.ts:1027-1044 | a cancel that captures the finalisation of a live run keeps the invariant |
| DaemonProofs.ShutdownKeepsInv | apps/agentd/src/orchestrator.ts:1090-1115 | requesting shutdown, and each stage of the drain when what it waits for is gone, keeps the invariant |
| DaemonProofs.WorkerExitKeepsInv | apps/agentd/src/orchestrator.ts:499-505 | exits at any moment keep the invariant |
| DaemonProofs.CrashKeepsInv | apps/agentd/src/recovery.ts:1-22 | a crash, which keeps only the disk, keeps the invariant |
| DaemonProofs.BootRunKeepsInv | apps/agentd/src/recovery.ts:164-259 | recovering one run, wholly or in part, keeps the invariant |
| DaemonProofs.StepKeepsInv | apps/agentd/src/orchestrator.ts:290-1115 | every step of the daemon keeps the invariant |
| Steps.ServesAlone | apps/agentd/src/orchestrator.ts:290-1115 | a step of the serving daemon changes the acting coroutine, at most one that begins, and one run; unless it is the run's holder or creator, only a lock of it |
| Creations.WhoWrites | apps/agentd/src/orchestrator.ts:290-1115 | at any step a run is written by its one lock holder with its assertion, by the call that creates it with its own, by recovery, by its worker's exit, or, but for the lock, by nobody |
| Lifecycle.InvariantHolds | apps/agentd/src/orchestrator.ts:290-1115 | the invariant holds at every moment of every execution, crashes included |
| Lifecycle.AtMostOneWorker | apps/agentd/src/orchestrator.ts:403-529 | over all incarnations at most one process is ever spawned for a run |
| Lifecycle.RunningRunsAreRecorded | apps/agentd/src/orchestrator.ts:370-381 | a run that is RUNNING or VALIDATING on disk has its one process on record |
| Lifecycle.TerminalMeansResult | apps/agentd/src/orchestrator.ts:963-997 | a started run (one this or an earlier incarnation took out of QUEUED) that is terminal has a result, agreeing with its state and naming it, exactly when the write of the result was not lost |
| Lifecycle.OneResultOnly | packages/core/src/run-store.ts:471-490 | no path ever reaches the duplicate-result error, and at most one result is ever written |
| Lifecycle.SuccessIsNeverInferred | apps/agentd/src/orchestrator.ts:798-960 | SUCCEEDED on disk means the incarnation that launched the only worker saw reason exited, exit code 0, nothing rejected and exactly one result: a success naming this task and run |
| Lifecycle.LiveRunsAreBeingFinalised | apps/agentd/src/orchestrator.ts:494-528 | the keys of running are among those of finalizing, and each finalisation still awaits exactly that worker |
| Lifecycle.CancelAnswersATerminalState | apps/agentd/src/orchestrator.ts:1027-1056 | an ok answer of cancelRun is terminal if and only if the finalisation it waited for was not given up, and then it is the state the run ends in |
| Lifecycle.ShutdownLeavesNothingOpen | apps/agentd/src/orchestrator.ts:1090-1115 | when shutdown has resolved no start is in flight, and a run this incarnation claimed is terminal exactly when nothing about it was given up |
| Lifecycle.NothingLaunchesAfterShutdown | apps/agentd/src/orchestrator.ts:382-401 | after shutdown has resolved this incarnation launches nothing any more |
| Lifecycle.NothingIsLost | apps/agentd/src/orchestrator.ts:764-997 | if writes land or the daemon dies, no claimed run is ever given up and no result lost |
| Lifecycle.TerminalRunsHaveTheirResult | apps/agentd/src/orchestrator.ts:963-997 | if writes land or the daemon dies, every started run that is terminal has exactly one result and it agrees |
| Lifecycle.ShutdownFinishesEveryRun | apps/agentd/src/orchestrator.ts:1077-1115 | under the same assumption a resolved shutdown leaves every run it claimed terminal with a result |
| Lifecycle.CancelAnswersTerminal | apps/agentd/src/orchestrator.ts:1027-1056 | under the same assumption every ok answer of cancelRun is a terminal state |
| Lifecycle.ServingStartsFromARecoveredStore | apps/agentd/src/recovery.ts:131-276 | the daemon serves only over a store in which every run is QUEUED, ORPHANED or terminal, and unlocked, and every listed directory has its state |
| Lifecycle.RecoveryOnlyOrphans | apps/agentd/src/recovery.ts:193-259 | boot changes a state to ORPHANED or not at all, never a terminal one, and touches no result and no worker |
| Lifecycle.OutcomesAreDurable | packages/core/src/run-store.ts:298-317 | no step, crash or later incarnation takes back a terminal state, a result, a claim or an audit record |
| Lifecycle.CreatedRunsAreAudited | apps/agentd/src/orchestrator.ts:290-343 | a run createTask answered ok for is audited; a denied one is FAILED with a result and never launched |
| Audits.UnauditedIff | apps/agentd/src/orchestrator.ts:297-317 | a run has no audit record exactly if the call that creates it still stands before the append, or ended there: the daemon died, the append failed, or the state that made the run was told to have failed |
| Audits.UnauditedByCrashIff | apps/agentd/src/orchestrator.ts:297-317 | if the append lands or the daemon dies: exactly if the call still stands there, or the daemon died there |
| Audits.LaunchedUnauditedIff | apps/agentd/src/orchestrator.ts:283-311 | if the append lands or the daemon dies, a run with a worker has no audit record exactly if the daemon died while the call stood before the append |
| Escapes.OpenIff | apps/agentd/src/orchestrator.ts:304-343 | a run has been started, or waits to be, exactly if its creation has ended with the run QUEUED on disk |
| Escapes.DeniedIsOpenIff | apps/agentd/src/orchestrator.ts:319-327 | if the writes of its creation land or the daemon dies, a denied run has been started, or waits to be, exactly if the daemon died before its FAILED was on disk |
| Denials.FailedIsNeverStarted | apps/agentd/src/orchestrator.ts:319-323 | once FAILED is on disk a run that was never started never is, in this incarnation or a later one |
| Reboots.CanBeLaunchedIff | apps/agentd/src/orchestrator.ts:382-472 | over a store whose directories have their state, a run that was never started can be launched by some continuation, with or without crashes, if and only if it is QUEUED on disk |
| Reboots.IncompleteIff | packages/core/src/run-store.ts:194-261 | a listed directory has no state exactly if the call that makes it still stands, or ended before the state was written: the daemon died, or one of its writes failed |
| Reboots.NeverServesAgain | apps/agentd/src/cli.ts:99-109 | a boot that meets a directory without state refuses to serve, and so does every later one |
| Reboots.CanServeIff | apps/agentd/src/cli.ts:99-109 | a daemon that is not serving can ever serve again if and only if every listed directory has its state |
| Launches.UnrecordedIff | apps/agentd/src/orchestrator.ts:449-486 | a launched process is not on record exactly if its start still stands before the record, or ended between the spawn and the record: the daemon died, the record failed, or the launch failed with a process left |
| Launches.UnrecordedByCrashIff | apps/agentd/src/orchestrator.ts:449-486 | if a failed launch leaves no process and the record lands or the daemon dies: exactly if the start still stands there, or the daemon died there |
| Launches.ForgottenForEver | apps/agentd/src/orchestrator.ts:474-486 | once that start is gone, no later incarnation ever records the process |
| Denials.UnstartedTerminalIsDenied | apps/agentd/src/orchestrator.ts:319-336 | a run that was never started is terminal only because admission denied it, and has its result whenever createTask answered ok; a result it has names it and says it was blocked |
| Denials.DeniedResultMissingIff | apps/agentd/src/orchestrator.ts:319-327 | if the writes of a denial land or the daemon dies, a run that was never started is terminal without result exactly if the daemon died, or the call still stands, between the two writes |
| Denials.TerminalResultMissingIff | apps/agentd/src/orchestrator.ts:963-974 | all runs together: if writes land or the daemon dies, a terminal run misses its result exactly in that case |
| Shortfalls.DeniedThenCrashed | apps/agentd/src/orchestrator.ts:322-326 | an execution in which every write lands and a crash leaves a denied run FAILED without result |
| Shortfalls.ResultLostThenTerminal | apps/agentd/src/orchestrator.ts:976-997 | an execution in which a started run is FAILED without result, because the write of the result was lost and nobody looked |
| Shortfalls.GivenUpThenShutDown | apps/agentd/src/orchestrator.ts:1090-1115 | an execution in which shutdown has resolved and a run this incarnation started is not terminal, because its last transition was lost |
| Shortfalls.AnInterruptedCreationMayBeLaunched | apps/agentd/src/orchestrator.ts:297-317 | an execution in which a denied, unaudited run is launched, after a crash inside createTask |
| Shortfalls.InterruptedMakingEndsService | packages/core/src/run-store.ts:194-261 | an execution in which every write lands, and a crash inside store.create leaves a store over which no daemon ever serves again |
| Shortfalls.UnrecordedWorkerSurvives | apps/agentd/src/recovery.ts:206-226 | an execution in which a later incarnation serves, the run is ORPHANED, and its process has not ended and is not on record |
| Shortfalls.CancelAnsweredRunning | apps/agentd/src/orchestrator.ts:1042-1055 | an execution in which cancelRun answers ok and RUNNING, after a terminal write that was lost |
| Undisturbed.AllowedTaskIsQueued | apps/agentd/src/orchestrator.ts:290-343 | an execution in which a task that admission allows is created: its run is QUEUED, audited and unlocked, without result |
| Undisturbed.DeniedTaskIsBlocked | apps/agentd/src/orchestrator.ts:319-343 | an execution in which a task that is denied is created, FAILED and audited, with a result for this run that says it was blocked |
| Undisturbed.ARunCanSucceed | apps/agentd/src/orchestrator.ts:403-997 | an execution in which a run is created, launched, finalised and released: SUCCEEDED, with the result its worker wrote |
| Orchestrator.LeaseHolder.TransitionState | packages/core/src/run-store.ts:298-317 | for each answer of the disk: the state on disk is checked against the table, then replaced, left, or replaced and reported as failed |
| Orchestrator.LeaseHolder.WriteResult | packages/core/src/run-store.ts:471-490 | a result that can be read refuses a second one; otherwise one is written, or lost |
| Orchestrator.LeaseHolder.Terminate | apps/agentd/src/orchestrator.ts:976-997 | the run ends with the given state and result if both writes land, and is given up or without result otherwise, through the steps of the protocol |
| Orchestrator.LeaseHolder.Finalize | apps/agentd/src/orchestrator.ts:764-961 | if the reads and writes on its way land, the chain of checks commits the run to exactly the verdict ruled for its outcome and output; otherwise the run is given up or without result |
| Orchestrator.LeaseHolder.ValidateOutput | apps/agentd/src/orchestrator.ts:869-960 | success only from one result that names this run, with nothing rejected |
| Orchestrator.LeaseHolder.FailBeforeLaunch | apps/agentd/src/orchestrator.ts:605-631 | a run that never got a process ends FAILED with its result if the writes land |
| Orchestrator.LeaseHolder.AbandonLaunch | apps/agentd/src/orchestrator.ts:645-667 | a worker that could not be recorded is waited for, then its run ends FAILED with its result if the writes land |
| Orchestrator.LeaseHolder.StartLocked | apps/agentd/src/orchestrator.ts:437-472 | it ends RUNNING exactly if nothing failed on the way, with the run untouched exactly if it was not claimed, and otherwise FAILED with its result if the writes land |
| Orchestrator.LeaseHolder.RecordLaunch | apps/agentd/src/orchestrator.ts:474-498 | a launched worker leads to RUNNING exactly if its pid and the state land, and is stopped otherwise |
| Orchestrator.ResultStep | packages/core/src/run-store.ts:471-490 | the store's check-then-write is two steps of the protocol |
| Orchestrator.EndStep | packages/core/src/run-store.ts:298-317 | the final transition is two steps of the protocol, whatever the store answers |
| Orchestrator.ClaimHolds | apps/agentd/src/orchestrator.ts:441-443 | the transition to PREPARING claims the run exactly when it lands |
| Orchestrator.RunningSteps | apps/agentd/src/orchestrator.ts:488-498 | the transition to RUNNING leaves the start or goes to the abandoning path |
| Recovery.StopSurvivingWorker | apps/agentd/src/recovery.ts:107-124 | SIGKILL follows SIGTERM exactly when the process is there at every poll of the grace period; "stopped" is only said of a process seen gone; the time is bounded |
| Recovery.Store.TransitionState | packages/core/src/run-store.ts:298-317 | one run moves along an edge of the table or nothing changes, for each answer of the disk |
| Recovery.Store.RecoverRun | apps/agentd/src/recovery.ts:164-259 | what becomes of one run, and what is reported of it, for each answer of the disk and the process table (JudgedSays) |
| Recovery.JudgedSays | apps/agentd/src/recovery.ts:164-259 | from the old state, the metadata and the answers alone: a worker is reported terminated exactly if the run is mid-flight, its metadata names a process and that one answers alive, with its pid and whether it was stopped; the run is failed if it was not; the orphaned entry carries the liveness that was answered; the state moves exactly if the transition could be made, the lock goes exactly if it can be removed |
| Recovery.SurvivorsMustBeStopped | apps/agentd/src/recovery.ts:228-247 | a mid-flight run whose worker was found alive and not stopped is handled with a failure |
| Recovery.OneRun | apps/agentd/src/recovery.ts:164-259 | a run handled without failure is settled and reported once, as untouched or as orphaned; a settled run is left as it was; nothing but mid-flight to ORPHANED ever changes |
| Recovery.Store.RecoverRuns | apps/agentd/src/recovery.ts:131-276 | it reports success exactly if the listing and every run were handled without failure; then every listed run is QUEUED, ORPHANED or terminal and unlocked, the counts add up, the orphaned are exactly the mid-flight runs, each with the liveness that was answered, and the terminated are exactly one entry for each mid-flight run whose recorded process answered alive, with its pid and stopped, and no other; a worker found alive and not stopped fails the pass; even on error only mid-flight runs change, to ORPHANED; on a settled store nothing changes |
| Boot.RecoverRunIsABootStep | apps/agentd/src/recovery.ts:164-259 | for every answer of the disk and the process table, what the recovery code does to a run, and the failure it reports, is the boot step of the daemon model |
| Boot.UnrecordedIsLeftAlone | apps/agentd/src/recovery.ts:206-226 | a mid-flight run whose metadata names no process is reported as not launched and orphaned, and nothing is stopped, whatever is running |
| Boot.IncompleteFailsTheBoot | apps/agentd/src/recovery.ts:163-175 | a listed directory without state is a failure of the pass, whatever is answered, and stays as it is |
| Recovery.StaysAccurate | apps/agentd/src/recovery.ts:154-275 | the report stays exact from run to run |
| Supervisor.SupervisedProcess.constructor | packages/process-supervisor/src/supervisor.ts:304-395 | a launched process has its two timers and nothing else |
| Supervisor.SupervisedProcess.Terminate | packages/process-supervisor/src/supervisor.ts:317-335 | the request is a step of the state machine |
| Supervisor.SupervisedProcess.RequestCancel | packages/process-supervisor/src/supervisor.ts:453-460 | a cancel is a step of the state machine |
| Supervisor.SupervisedProcess.OnOutputLimit | packages/process-supervisor/src/supervisor.ts:337-342 | an overflow is a step of the state machine |
| Supervisor.SupervisedProcess.OnOutputError | packages/process-supervisor/src/supervisor.ts:344-352 | a write error is a step of the state machine |
| Supervisor.SupervisedProcess.Elapse | packages/process-supervisor/src/supervisor.ts:382-395 | a millisecond in which every due timer runs, in the order set |
| Supervisor.SupervisedProcess.OnClose | packages/process-supervisor/src/supervisor.ts:398-400 | settling drops every timer |
| Supervisor.TurnOfTimers | packages/process-supervisor/src/supervisor.ts:317-395 | exactly what a turn of due timers adds to the reason, the signals and the pending timers |
| Supervisor.AlwaysGood | packages/process-supervisor/src/supervisor.ts:304-461 | over every sequence of events: the hard timer is pending until due, each SIGTERM is followed or will be, and SIGKILL has no other origin; a delay out of the range of a timer is one millisecond |
| Signalling.SignalsAreExactly | packages/process-supervisor/src/supervisor.ts:316-395 | over every sequence of events an open process has been sent SIGTERM at every cancel, at an overflow or write error if nothing had asked before, and when the hard timeout came, at those moments and no other; and SIGKILL exactly one grace period after each of these that is so long ago |
| Supervisor.BoundedKill | packages/process-supervisor/src/supervisor.ts:316-335 | a process open one grace period after its hard timeout has been sent SIGTERM by the timeout and SIGKILL one grace period after that |
| Supervisor.NeverKilledEarly | packages/process-supervisor/src/supervisor.ts:327-334 | every SIGKILL comes exactly one grace period after a SIGTERM |
| Supervisor.SoftTimeoutIsAdvisory | packages/process-supervisor/src/supervisor.ts:382-389 | the soft timeout marks the outcome exactly from its due time on, which is TimeoutsOnTimeIff's, and sends nothing |
| Supervisor.TimeoutsOnTimeIff | packages/testkit/src/harness.ts:41-56 | the hard and the soft timeout of an undisturbed process come when they were asked for if and only if that is from 1 to 2147483647 ms; otherwise after one millisecond |
| Supervisor.LongTimeoutEndsAtOnce | packages/protocol/src/primitives.ts:48-163 | a task that is accepted with a hard timeout of thirty days gets SIGTERM, for a timeout, after one millisecond |
| Supervisor.SignalledIffCause | packages/process-supervisor/src/supervisor.ts:316-335 | an open process has been signalled exactly if something asked for its end |
| Supervisor.QuietAfterClose | packages/process-supervisor/src/supervisor.ts:397-420 | whatever happens after it settles, no signal is sent and reason and soft timeout stay |
| Supervisor.FirstCauseIsReported | packages/process-supervisor/src/supervisor.ts:317-352 | the reported reason is the first cause requested while open; the named stream is that cause's, or, without a cause, the last overflow noticed after the close |
| Supervisor.StreamNamedWithoutLimit | packages/process-supervisor/src/supervisor.ts:337-342 | a stream is named without reason output_limit exactly when a process without cause left an overflow to be noticed after its close; output_limit always names one |
| Supervisor.LateOverflowIsNotAnOutputLimit | packages/process-supervisor/src/supervisor.ts:318-342 | the event sequence close, overflow is such a case |
| BoundedSink.FileHandle.WriteAll | packages/process-supervisor/src/supervisor.ts:160-169 | for any pattern of short writes exactly the bytes reached before the first write without progress are appended, and ok means all of them |
| BoundedSink.ProgressReachesTheEnd | packages/process-supervisor/src/supervisor.ts:160-169 | a device that always makes progress takes everything, however short its writes |
| BoundedSink.Sink.WriteChunk | packages/process-supervisor/src/supervisor.ts:183-210 | one chunk is a step of the ledger; counting and reporting do not depend on the device, and a write error is reported once and loses only what was not reached |
| BoundedSink.Split | packages/process-supervisor/src/supervisor.ts:189-196 | the part of two chunks that fits is the part of the first and what then still fits of the second |
| BoundedSink.CutsDoNotMatter | packages/process-supervisor/src/supervisor.ts:171-220 | the file is its old contents and the longest prefix of the stream that fits, never more than the limit or what it was; every byte is counted; the limit is reported once exactly if bytes were dropped |
| BoundedSink.SameBytesSameLedger | packages/process-supervisor/src/supervisor.ts:171-220 | the way the stream is cut cannot be told from the result |
| Text.LinesPartition | packages/protocol/src/ndjson-stream.ts:55-57 | splitting loses nothing and cuts at newlines only |
| Text.LinesAppend | packages/protocol/src/ndjson-stream.ts:54-57 | reading on from the held-back fragment gives the lines of the whole |
| Text.BytesOfLines | packages/protocol/src/ndjson-stream.ts:62-64 | every byte is in a complete line or in the fragment |
| Text.WidthIsLeast | packages/protocol/src/ndjson-stream.ts:64 | a character takes the fewest bytes that can hold it in UTF-8 |
| Text.TwentyFiveSpaces | packages/protocol/src/ndjson-stream.ts:65 | the characters that make no line say anything are the twenty-five that trimming a string removes |
| Ndjson.NdjsonStream.PushChunk | packages/protocol/src/ndjson-stream.ts:54-96 | a push is the step of the reader, and reports exactly what it added (PushHoldsRecords) |
| Ndjson.NdjsonStream.FinishStream | packages/protocol/src/ndjson-stream.ts:99-116 | the trailing fragment is taken as one line, once |
| Framing.PushHoldsRecords | packages/protocol/src/ndjson-stream.ts:54-96 | on the text a push has before it, from any offset: record k is what the k-th line that fits, says something and parses parses to, and ends behind that line's newline; every other line that says something is a rejection, and so is a fragment over the maximum, which is dropped and consumed |
| Framing.LastRecord | packages/protocol/src/ndjson-stream.ts:99-116 | the last fragment is one record at most: what it parses to, ending where the stream does; else a rejection unless it is blank |
| Framing.LinesHoldRecords | packages/protocol/src/ndjson-stream.ts:62-79 | the records of complete lines are the parses of exactly the accepted ones, in order, with the bytes up to and with their newlines as ends |
| Framing.StreamHoldsRecords | packages/protocol/src/ndjson-stream.ts:54-96 | over any cutting of a bounded stream record k is the parse of the k-th accepted line, and its endOffset the bytes of the prefix of the text that ends with that line's newline |
| Ndjson.PushCollects | packages/protocol/src/ndjson-stream.ts:54-96 | what single pushes report adds up to the reading of the whole |
| Ndjson.FinishCollects | packages/protocol/src/ndjson-stream.ts:99-116 | so does what the end of the stream reports |
| Ndjson.CutsDoNotMatter | packages/protocol/src/ndjson-stream.ts:54-96 | for every cutting of a stream whose lines fit, records, end offsets, rejected count and fragment are those of one reading of the whole |
| Cuts.CuttingsAgreeIff | packages/protocol/src/ndjson-stream.ts:54-96 | whatever the decoder, all cuttings of a text give the same records, offsets, counts and fragment if and only if every line is so that each prefix over the maximum leaves only blanks that fit of a line that is not blank, and no proper prefix of the fragment is over the maximum |
| Cuts.SafeReading | packages/protocol/src/ndjson-stream.ts:54-96 | what such a text leaves, however it is cut: the lines read at once, and a fragment over the maximum dropped as one rejection |
| Cuts.SafeTextsReadAlike | packages/protocol/src/ndjson-stream.ts:54-96 | two cuttings of a text that is safe to cut cannot be told apart |
| Cuts.SameTextSameReading | packages/protocol/src/ndjson-stream.ts:54-96 | in particular of a bounded one |
| Cuts.OverlongLinesDependOnCuts | packages/protocol/src/ndjson-stream.ts:82-88 | two cuttings of one overlong line that are read differently |
| Ndjson.LinesAreAccountedFor | packages/protocol/src/ndjson-stream.ts:62-79 | every non-blank line is a record or rejected |
| Ndjson.EveryByteIsAccountedFor | packages/protocol/src/ndjson-stream.ts:82-88 | after any pushes, overflow included, consumed and pending bytes add up to the bytes fed |
| Ndjson.WholeLife | packages/protocol/src/ndjson-stream.ts:54-116 | over a bounded stream and its end every byte is consumed, nothing is left, and records plus rejections are the non-blank lines, the last fragment among them |
| Ndjson.ResumeFromOffset | packages/protocol/src/ndjson-stream.ts:43-46 | a fresh stream started at the offset, which is a line boundary, yields exactly the remaining records at shifted offsets |
| Translation.StepsAppend | packages/adapters/codex/src/normalizer.ts:107-117 | translating two batches one after the other is translating them together |
| Translation.TurnsTranslate | packages/adapters/claude/src/normalizer.ts:136-165 | over any chunks of a bounded stream a normalizer yields the translation of the whole stream's records |
| Translation.CutsDoNotMatterToEvents | packages/adapters/claude/src/normalizer.ts:136-165 | two cuttings of one stream that is safe to cut give the same events, counts and memory |
| Translation.LastTurnTranslates | packages/adapters/claude/src/normalizer.ts:141-143 | the trailing fragment is translated after the rest, once |
| Codex.CodexEventNormalizer.PushChunk | packages/adapters/codex/src/normalizer.ts:98-100 | a push is one turn of the session and reports what it added |
| Codex.CodexEventNormalizer.FinishStream | packages/adapters/codex/src/normalizer.ts:103-105 | the end of the stream is its last turn |
| Codex.CodexEventNormalizer.Consume | packages/adapters/codex/src/normalizer.ts:107-127 | the loop over the records is the fold of their translations (LogsAreRedacted, MalformedIsRejected) |
| Codex.EveryRecordOnce | packages/adapters/codex/src/normalizer.ts:107-221 | events are numbered without gaps from the start sequence and every record has exactly one outcome |
| Codex.LogsAreRedacted | packages/adapters/codex/src/normalizer.ts:129-197 | over any records the log messages are the redactions of what the records say, one by one and in order; tool events carry the ids of the provider as they are, with the phase and exit code of their record |
| Codex.MalformedIsRejected | packages/adapters/codex/src/normalizer.ts:129-197 | over any records: rejected are, besides what the framing rejected, exactly those without kind, item events without item, failures without failure and completed messages without text; ignored exactly the others that tell nothing; so records no schema refuses add no rejection |
| Codex.StreamRejectsFaults | packages/adapters/codex/src/normalizer.ts:98-127 | over any cutting of a bounded stream and its end: one rejection for each line that does not parse or whose record is malformed, and none exactly if every line is blank or parses to a record no schema refuses |
| Codex.StreamIsAccountedFor | packages/adapters/codex/src/normalizer.ts:98-127 | over any chunks, and over their end: contiguous numbers, events plus ignored plus rejected equal the non-blank lines (with the last fragment, once the stream has ended), the offset is the bytes of the complete lines, and in the end all bytes |
| Claude.ClaudeEventNormalizer.PushChunk | packages/adapters/claude/src/normalizer.ts:136-138 | a push is one turn of the session |
| Claude.ClaudeEventNormalizer.FinishStream | packages/adapters/claude/src/normalizer.ts:141-143 | the end of the stream is its last turn |
| Claude.ClaudeEventNormalizer.Consume | packages/adapters/claude/src/normalizer.ts:145-165 | the loop over the records is the fold of their effects on numbering and open calls |
| Claude.ClaudeEventNormalizer.TranslateRecord | packages/adapters/claude/src/normalizer.ts:167-212 | one record's events and its change of the memory |
| Claude.ClaudeEventNormalizer.TranslateBlocks | packages/adapters/claude/src/normalizer.ts:210-273 | the blocks of a message are combined in order |
| Claude.EventsAreNumbered | packages/adapters/claude/src/normalizer.ts:275-297 | events of any records are numbered without gaps from the start sequence |
| Claude.ToolsArePaired | packages/adapters/claude/src/normalizer.ts:230-256 | each completed call carries the name of the last start of its id that nothing completed since, or "unknown"; the memory is exactly the open calls |
| Claude.StreamIsPairedAndNumbered | packages/adapters/claude/src/normalizer.ts:136-298 | the same over any chunks of a bounded stream, and over its end: pairing and numbering cross chunk boundaries and take in the last fragment |
| Claude.LogsAreRedacted | packages/adapters/claude/src/normalizer.ts:167-264 | over any records the log messages are the redactions of the texts of messages and text blocks, one by one and in order; names and ids of tool events are not redacted (ToolsArePaired) |
| Claude.MalformedIsRejected | packages/adapters/claude/src/normalizer.ts:167-273 | over any records: rejected are, besides what the framing rejected, exactly the records without kind, the messages without content, the blocks without kind, the texts without text and the calls and results that do not name theirs; ignored exactly the records and blocks of other kinds |
| Claude.StreamRejectsFaults | packages/adapters/claude/src/normalizer.ts:136-165 | over any cutting of a bounded stream and its end: the rejections are what is at fault in its lines, and none exactly if every line is blank or parses to a record in which nothing is refused |
| EventLog.RunStore.constructor | packages/core/src/run-store.ts:173-177 | a new process goes, for every run, by the index the file gives |
| EventLog.RunStore.ReadEvents | packages/core/src/run-store.ts:423-459 | the page is the first limit of all readable records after the cursor, ascending by sequence, records of one sequence in file order; no file is no events; only an unreadable file is an error |
| EventLog.PageIff | packages/core/src/run-store.ts:423-459 | a page is what is returned if and only if it ascends, holds of each sequence after the cursor exactly the file's records in file order and of others none, up to the limit |
| EventLog.WholePageIsPermutation | packages/core/src/run-store.ts:423-459 | without a limit every record after the cursor is in the page as often as in the file, and no other |
| EventLog.RunStore.LoadSequenceIndex | packages/core/src/run-store.ts:343-358 | an append goes by the cached index, or else by the index of the file, and caches it; it is had whenever it is cached or the file can be read |
| EventLog.RunStore.AppendEvents | packages/core/src/run-store.ts:372-411 | for any log, cached index and answers of the encoder and the disk: exactly the new records before the first conflict are appended, up to the first that is not encoded or not told to have landed (which may be on disk all the same); the cache gains exactly those told to have landed, and the answer says where it stopped |
| EventLog.SortKeepsIndex | packages/core/src/run-store.ts:352-356 | indexing the sorted records is indexing the file |
| EventLog.AppendedLineIsRead | packages/core/src/run-store.ts:400-403 | behind a terminated log an appended line is read as its event |
| Appending.FileSays | packages/core/src/run-store.ts:436-451 | a file says what its first line says and then what the rest says; a line says what it decodes to, and nothing if it is blank or does not decode |
| Appending.PrintIff | packages/core/src/run-store.ts:153-158 | two records have one fingerprint if and only if they agree on kind, timestamp and payload |
| Appending.IndexSays | packages/core/src/run-store.ts:343-358 | the index of a log has exactly its sequences, each with the fingerprint of the latest record that claims it |
| Appending.DisputedIffClashes | packages/core/src/run-store.ts:382-395 | a record clashes exactly if the latest record of its sequence in the log, or an earlier one in the batch, differs from it in kind, timestamp or payload |
| Appending.AppendIsExactly | packages/core/src/run-store.ts:372-411 | for any log, known records, batch and answers: a record that agrees with the one of its sequence is skipped; the first that differs from it answers a conflict with that sequence, the first new one that cannot be encoded or does not land for certain answers that; exactly the new ones before it are on disk and in the index, and of itself at most an unsure write on disk; if none stops it, all new ones are written and counted |
| LogLaws.AppendsStayDistinct | packages/core/src/run-store.ts:380-408 | an append never puts a sequence on disk twice, and the index it hands on is the one of the grown log |
| LogLaws.EverySequenceOnce | packages/core/src/run-store.ts:372-411 | over any history of batches whose writes are told truly each sequence is on disk at most once |
| LogLaws.AppendingAgainWritesNothing | packages/core/src/run-store.ts:360-371 | a batch once accepted writes nothing again, at once, after other batches or after a restart |
| LogLaws.NoClashWritesFirstClaims | packages/core/src/run-store.ts:380-408 | without two records for one sequence exactly the first claims are written |
| LogLaws.FirstClashStops | packages/core/src/run-store.ts:386-394 | the first clash stops the batch, names its sequence and leaves exactly what came before it |
| LogLaws.AppendIsReadIffTerminated | packages/core/src/run-store.ts:443-448 | behind a torn tail an appended record is read back if and only if the log was terminated; the torn part is lost with it |
| LogLaws.CacheAgreesIffTerminated | packages/core/src/run-store.ts:400-406 | after writing a new record the cached index is the file's if and only if the log was terminated |
| LogLaws.AppendedRecordsAreRead | packages/core/src/run-store.ts:423-459 | what an append writes behind a terminated log is what a later read finds |
| LogLaws.IndexAgreesIff | packages/core/src/run-store.ts:400-407 | an index that was the file's is so after an append if and only if the append did not end with a write that landed and was told to have failed |
| LogLaws.SecondRecordAfterUnsure | packages/core/src/atomic.ts:107-117 | after such a write the next record of that sequence, equal or not, is put on disk too in the same process, and not in a new one |
| LogLaws.DistinctIffNothingForgotten | packages/core/src/run-store.ts:380-408 | an append repeats a sequence exactly if it writes one that is in the file and not in the index it goes by |
| LogLaws.RestartedLogsStayDistinct | packages/core/src/run-store.ts:343-411 | over any history of appends, failures and restarts in which a restart follows each such write, no sequence is on disk twice |
| Ingestion.ContiguousBatchKeepsNumbers | apps/agentd/src/orchestrator.ts:737-749 | a contiguous batch that starts no later than the end of a numbered log leaves it numbered, and is written whole if it starts at the end |
| Ingestion.Ingestor.Ingest | apps/agentd/src/orchestrator.ts:727-761 | for each answer of the encoder and the store: what is filed, what is logged as an error, what the index knows, and that the recorded number moves exactly when the append succeeded and is recorded; a log numbered from 0 whose index is known stays numbered and only grows by this run's records in order, and its index stays known exactly unless the last write was told wrongly; if the number was the end of the log, record old length + k carries the task, the run, that number, and timestamp, kind and payload of report k, for all reports if nothing is logged and for a prefix of them otherwise |
| Ingestion.StampReports | apps/agentd/src/orchestrator.ts:737-749 | report k is stamped with the task, the run and the number k past the next, and keeps its timestamp, kind and payload |
| Ingestion.FiledStaysNumbered | packages/core/src/run-store.ts:396-410 | an append that fails part way or meets a conflict leaves a numbered log, grown by a prefix of what it would have written |
| Ingestion.PageIsNextRecords | packages/core/src/run-store.ts:423-459 | on a numbered log a page is the next records after the cursor, in order |
| Ingestion.CheckPage | apps/pi-extension/src/index.ts:261-275 | a page is accepted exactly when it is of this run and ascends from the cursor |
| Watching.Snapshot | apps/pi-extension/src/index.ts:249-299 | which call failed, or that a record of the page is of another run or task or does not ascend; otherwise the status, the last record of the page and its size |
| Ingestion.Follower.Poll | packages/core/src/run-store.ts:423-459 | a follower of the store has seen exactly the log up to its cursor, and the cursor moves by the page |
| Ingestion.ReaderSeesThePrefix | apps/pi-extension/src/index.ts:315-328 | over any history of appends and polls the reader has seen exactly the log's prefix up to its cursor |
| Ingestion.ReaderCatchesUp | apps/pi-extension/src/index.ts:315-328 | once appends stop, polls with any positive limits reach the whole log |
| Watching.ShowsNextRecords | apps/pi-extension/src/index.ts:279-298 | on a numbered log a page that is shown is the next records after the cursor, as many as the limit allows |
| Watching.Watch | apps/pi-extension/src/index.ts:301-330 | over any rounds, with aborts, failing calls and a failing consumer: the code is the fold of its turns, and ends where the first of them ends |
| Watching.WatchFollows | apps/pi-extension/src/index.ts:315-326 | over any rounds on a growing numbered log the pages were exactly the last log up to the cursor, the cursor is where pages of that limit get, and each snapshot gives the size of its page and its last record |
| Watching.WatchEndsWithTheFirst | apps/pi-extension/src/index.ts:301-330 | on a growing numbered log of the task a watch looks at the log of every round until the first that is aborted, whose status or log cannot be had, whose consumer fails, or that finds the run over; it ends with that round and says so |
| Watching.WatchSeesAllIff | apps/pi-extension/src/index.ts:315-326 | for every final log: a watch has seen all of it if and only if its last look was at all of it and the cursor before that look was within one page of its end |
| Watching.FirstLookSeesAllIff | apps/pi-extension/src/index.ts:315-326 | a watch of a run that is over at the first look stops there, and has seen all if and only if the log was whole and fits one page |
| Watching.TailBeyondThePage | apps/pi-extension/src/index.ts:323-326 | a watch that stops with more than a page unread |
| Watching.TailAfterTheLook | apps/pi-extension/src/index.ts:283-286 | a watch that stops although the log was read before the last append, the status after the end |
| Ulid.AlphabetOrder | packages/protocol/src/ids.ts:55-61 | the characters ascend with their digits and decode to them; at most '7' is below 8 |
| Ulid.DigitsHaveValue | packages/protocol/src/ids.ts:69-76 | the digits of a time that fits have its value |
| Ulid.OrderIsNumeric | packages/protocol/src/ids.ts:109-124 | for digit strings of one length string order is numeric order |
| Ulid.NextIsPlusOne | packages/protocol/src/ids.ts:88-101 | incrementing is plus one in base 32, and fails exactly at the highest value |
| Ulid.IncrementDigits | packages/protocol/src/ids.ts:89-101 | in place: the next digit string, or zeros and a failure |
| Ulid.EncodeTime | packages/protocol/src/ids.ts:63-77 | the ten digits of a time of 48 bits, a violation otherwise |
| Ulid.UlidTimeMs | packages/protocol/src/ids.ts:165-178 | the value of the first ten digits of a ULID, prefixed or not, and nothing otherwise |
| Ulid.FirstDigitBoundsTime | packages/protocol/src/ids.ts:32-36 | ten digits are 48 bits exactly when the first is at most 7 |
| Ulid.TimeRoundTrip | packages/protocol/src/ids.ts:165-178 | decoding inverts encoding, with or without the prefix, and what is made is a ULID |
| Ulid.AcceptedIsEncoding | packages/protocol/src/ids.ts:152-178 | every accepted string is the encoding of the time it decodes to |
| Ulid.UlidFactory.Next | packages/protocol/src/ids.ts:129-142 | a call is a step of the factory's state and returns its identifier, or a violation |
| Ulid.CallSays | packages/protocol/src/ids.ts:129-142 | a later clock sets the time and takes the drawn bytes mod 32; an equal or earlier one keeps the time and adds one to the value; a call is a violation exactly at the highest value or outside 48 bits |
| Ulid.IdsCarryTheDraw | packages/protocol/src/ids.ts:79-142 | read from the identifiers: after a later clock the random part is the drawn bytes mod 32, otherwise one more than that of the identifier before |
| Ulid.IdsStrictlyIncrease | packages/protocol/src/ids.ts:109-143 | for every clock sequence, backwards included, a later identifier sorts after an earlier one unless a call in between ran out of randomness |
| Ulid.IdsCarryLatestTime | packages/protocol/src/ids.ts:130-141 | every identifier is a ULID whose time is the latest the clock has said |
| Ulid.AfterExhaustion | packages/protocol/src/ids.ts:90-100 | after a call that ran out, the next identifier sorts after the last one if and only if the clock has passed that millisecond |
| JsonShape.PushChildren | packages/protocol/src/primitives.ts:239-245 | pushing the children keeps the nodes pending and the depth in reach |
| JsonShape.JsonShapeExceeds | packages/protocol/src/primitives.ts:224-250 | true exactly when the recursive count or depth exceeds its ceiling, after at most maxNodes + 1 pops |
| JsonShape.PlacesAreCounted | packages/protocol/src/primitives.ts:224-250 | the count is the number of places in the value, and the depth one more than the longest way to one |
| ShellQuote.QuoteIsOneWord | packages/cmux/src/shell-quote.ts:11-15 | a shell reads a quoted argument as one word, the argument; a NUL is refused |
| ShellQuote.ApostropheIsLiteral | packages/cmux/src/shell-quote.ts:13-14 | leaving and re-entering the quotes adds just the apostrophe |
| ShellQuote.JoinRoundTrip | packages/cmux/src/shell-quote.ts:11-20 | tokenising the joined line gives back exactly the argument vector if and only if it is NUL-free |
| ShellQuote.JoinIsInjective | packages/cmux/src/shell-quote.ts:18-20 | two vectors never share a line |
| PathContainment.ContainedIsSegmentPrefix | packages/policy/src/path-containment.ts:48-63 | the string test is the prefix relation on segments |
| PathContainment.ContainmentIsPartialOrder | packages/policy/src/path-containment.ts:38-63 | containment is reflexive, transitive and antisymmetric on resolved paths |
| PathContainment.ResolveOfRender | packages/policy/src/path-containment.ts:52-53 | resolving a resolved path changes nothing |
| PathContainment.ResolveOneMore | packages/policy/src/path-containment.ts:52-53 | one more piece of an absolute path: nothing if it is empty or a dot, one segment back if it is two dots, but never above the root, else one segment on; a relative path is one below the working directory |
| PathContainment.ResolveExistingAncestor | packages/policy/src/path-containment.ts:73-89 | the loop ends, with realpath of the longest prefix that has one and the rest behind it |
| PathContainment.AncestorIsLongest | packages/policy/src/path-containment.ts:73-89 | on a filesystem that prefix is the longest that leads somewhere |
| PathContainment.ResolutionIsLocation | packages/policy/src/path-containment.ts:65-89 | the resolution is the place the filesystem would use if and only if the first missing name is not itself a link |
| PathContainment.AssertContained | packages/policy/src/path-containment.ts:102-149 | ok exactly when both are absolute and the one resolves inside the other; the lexical variant decides on the spelling |
| PathContainment.CheckPathAccess | packages/policy/src/path-containment.ts:158-184 | accepted exactly when inside some allowed and no forbidden directory |
| PathContainment.InsideIsInside | packages/policy/src/path-containment.ts:129-148 | without dead links, inside means that the place named lies in the place named |
| PathContainment.DanglingLinkIsMistaken | packages/policy/src/path-containment.ts:81-86 | a dangling link resolves to its own name although it names its target's place |
| PathContainment.DanglingLinkExists | packages/policy/src/path-containment.ts:81-86 | a filesystem in which that happens |
| Worktrees.RecordStore.Claim | packages/worktrees/src/records.ts:119-149 | an existing record stays; ok exactly if there was none and the write is whole and told so; a refusal names the holder on record if it can be read, which after an untold write is the caller itself |
| Worktrees.StepKeepsInv | packages/worktrees/src/manager.ts:195-462 | every step of every interleaving keeps the ownership invariant and every holder |
| Worktrees.ClaimIsForEver | packages/worktrees/src/records.ts:112-149 | a claimed path stays with its run through every further history, crashes included |
| Worktrees.OneRunPerPath | packages/worktrees/src/records.ts:16-19 | two runs are never handed the same path |
| Worktrees.EveryDirectoryIsRecorded | packages/worktrees/src/records.ts:6-11 | every directory or registration git made has a durable record naming the run it is for |
| Worktrees.CreatedAtMostOnce | packages/worktrees/src/manager.ts:266-277 | git is told to create a path at most once ever |
| Worktrees.OnlyAProvenReleaseRemoves | packages/worktrees/src/manager.ts:333-441 | a directory disappears only through a release whose record names its run, was read as created and unreleased and was listed by git, at or above that directory |
| Worktrees.RemovalTakesExactlyWhatIsBelow | packages/worktrees/src/manager.ts:409-435 | git's removal, and the rm behind it, take exactly what is at or below the path; a run loses a directory on record as its own to another run's release if and only if it lies strictly below that one's path |
| Worktrees.IncompleteRemovalStaysBelow | packages/worktrees/src/manager.ts:409-420 | a removal that fails after taking something takes nothing from outside the path, and leaves every record as it is |
| Worktrees.IncompleteRemovalIsStuck | packages/worktrees/src/manager.ts:409-420 | if it has unregistered the path, and nothing else is in flight for it, the path is created, unreleased and not listed |
| Worktrees.UnregisteredStaysOpen | packages/worktrees/src/manager.ts:390-420 | such a path stays so through every further history: no call of any run removes it or closes its record, so the open record cannot be retried |
| Worktrees.SettledIsQuiet | packages/worktrees/src/manager.ts:374-378 | releasing or claiming a released path changes nothing on disk |
| Worktrees.ReleasingAgainIsHarmless | packages/worktrees/src/manager.ts:374-378 | that stays so through every further history |
| Worktrees.ProvisionHandsOver | packages/worktrees/src/manager.ts:195-313 | without failures an unclaimed path is handed over, recorded, created and registered |
| Worktrees.ReleaseRemoves | packages/worktrees/src/manager.ts:362-462 | without failures the owner's release removes the path with everything below it, drops the registrations that lost their directory as far as git prunes them, and closes the record |
| Worktrees.NestedWorktreeGoesToo | packages/worktrees/src/manager.ts:409-435 | a history in which one run's release removes a directory of another run that lies below it; if git prunes that one's registration, its record can never be closed |
| WorktreeManager.Manager.constructor | packages/worktrees/src/manager.ts:119-142 | a new process resolves its root and starts from whatever a history of calls and crashes has left, and the invariant holds of it |
| WorktreeManager.Manager.Canonicalise | packages/worktrees/src/manager.ts:160-193 | a path is accepted exactly if it is absolute and its resolution through links is strictly inside that of the root, and then it is that resolution |
| WorktreeManager.Manager.Provision | packages/worktrees/src/manager.ts:195-313 | unless the path is inside the root, apart from the primary checkout either way, and the repository passes, nothing happens; otherwise the code takes exactly the protocol's steps for the resolved path; it hands over exactly if that was on no record and nothing failed; a path on record is refused and nothing changes; a path handed over exists, is registered and recorded as created for this run |
| WorktreeManager.Manager.Release | packages/worktrees/src/manager.ts:333-462 | outside the root nothing happens; otherwise the code takes exactly the protocol's steps; the answer for each state of the record and each failure; directories go exactly when removal was asked for, the record names this run as created and unreleased, and git lists the path, and then only as far as git removes them |
| WorktreeManager.ReleaseSays | packages/worktrees/src/manager.ts:333-462 | what a release leaves on disk and answers, case by case: an unreadable record or one of another run, a released one, a claim that was never created, one git does not list, one that is to be kept, a removal and a removal that failed |

## Left out

- Sockets, the daemon's own lock, `ps`, `spawn`, `fsync`, git itself and the clock are nondeterministic answers under the assumptions above; the RPC server, the client, commands, layouts and the logger are not part of this model.
- `decide`, `SandboxRegistry.select`, `buildWorkerEnvironment`, the error catalogue and the Cursor and Antigravity normalizers would add only members that repeat a branch or the Codex and Claude structure.
- zod schemas, JSON and SHA-256: a decoder is any partial function of a line, an encoder, where it does not refuse, its newline-free inverse (`PlainRecords` is one such pair), fingerprints and record names are injective; redaction is any function, timestamps of normalized events are left out.
- `Daemon` and `Worktrees` are relations over values, not classes, because each await is a point where other calls run and the process may die; `Orchestrator.LeaseHolder` and `WorktreeManager.Manager` tie the imperative code of one call to their steps. `createTask`, `cancelRun` and `shutdown` exist as steps only.
- A lock file in a directory without state, and task and metadata files that nobody reads before the state is there, are not modelled.
- `updateMetadata` is one write: only the lock holder of a run calls it. The metadata fields that matter to the lifecycle are the pid and, in `Ingestion`, the last sequence.
- The worktree calls inside a start or a finalisation appear in `RunProtocol` as one answer each; what they do is `Worktrees`.
- `handle.completed` resolves by assumption; an adapter whose own file write rejects would leave its run in `running` with a finalisation that has given up.
- A Dafny character is a Unicode scalar value, so a stream cut inside a surrogate pair is not modelled.
- Ndjson.ResumeFromOffset: for streams whose lines fit; after an overlong line the offset is inside that line.
- EventLog.RunStore.AppendEvents: each write of a record is whole or not at all; what a torn one leaves is AppendIsReadIffTerminated and CacheAgreesIffTerminated.
- Ingestion.Ingestor.Ingest: what it says of the numbering is for an index that is known; after an append that was told wrongly the numbering can repeat (SecondRecordAfterUnsure).
- Watching.Watch: the rounds of one watch are given as a sequence; the sleep between them and the run id check of the bridge are not modelled, and the page size is a parameter.
- Cuts.CuttingsAgreeIff: about pushes; the end of the stream adds the last fragment to whichever reading.
- Recovery.StopSurvivingWorker: whether the process exists is a function of the time since the call; signals that fail are not distinguished from signals that are ignored.
- Supervisor.BoundedKill: in discrete milliseconds with timers that run when due, and delays as Node's timers take them: what is zero or above 2147483647 is one millisecond.
- PathContainment.ResolutionIsLocation: a link's target is the absolute place it names; a relative target through further links and ".." is taken as already resolved.
- PathContainment.AssertContained: both paths are resolved against one unchanging filesystem; a change between two calls is not modelled.
- ShellQuote.JoinRoundTrip: words only; that a first word with "=" would be an assignment, aliases and reserved words are not modelled.
- Worktrees.OnlyAProvenReleaseRemoves: the record is unreleased when it is read; a concurrent release of the same run may close it before the removal.
- A release that finds a claim without `createdAt` closes it and removes nothing, although a failed `git worktree add` may have left a directory; the model does the same and claims nothing more.
- Symlinked spellings of one worktree path: `WorktreeManager` resolves what is requested against one unchanging filesystem; paths in `Worktrees` are canonical, and git's list is compared with them exactly.
- The repository of a worktree: which registrations `git worktree prune` drops is any set of those without directory; whether the repository passes the audit, has the commit and names a branch are answers.
- Directories that people create or remove, and `git worktree add` by hand, are not steps of `Worktrees`.
- JsonShape.JsonShapeExceeds: the size of the stack is not bounded, only the number of nodes taken from it.
