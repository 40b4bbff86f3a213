# Wio protocol models

Wio runs coding agents on remote servers. A control plane queues operations, an Agent on each
server executes them, and both must stay correct when messages are lost, repeated or late, when
processes die, and when the Agent replaces its own binary. This project models the parts of Wio
where that is hard and proves, for every run or every input, what they are for.

`dafny verify dfyconfig.toml` checks everything.

## How it is modelled

* **Agent operations** (`Protocol`, `OperationCache`, `OperationEngine`, `OperationSafety`,
  `OperationReplies`, `AgentClient`). Every received command runs in its own goroutine. `OperationEngine` is a step
  relation whose steps are the critical sections of `seenMu` and the effects between them: lookup and
  registration, gates, bodies, receipts, tombstones, pruning, probes, replays, crashes. `OperationSafety`
  proves what every run keeps, `OperationReplies` what the control plane is told. `AgentClient.Client` has the program's own form, methods that update the
  table and the disk in place, each proved to be the section of the same name.
* **Turn ownership** (`TurnOwnership`) is the gateway's two-level state, operation rows and thread rows,
  under result, start, init and ownership messages, user requests and the delivery loop; `Gateway` holds
  the handlers. `TurnOutcomes` says what each message leaves in the rows, and `SafeRelease` joins gateway,
  wire and Agent into one system.
* **Self-update** (`Version`, `SelfUpdate`, `UpdateChecks`): one manifest file, an installed executable, staged ones,
  failing writes and crashes anywhere.
* **Live Claude input** (`LiveTurn`, `LiveTurnSafety`, `LiveTurnProgress`, `ClaudeStream`): concurrent
  steering and answering callers against one reader of the CLI's output.
* **Codex** (`CodexRequests`, `CodexTurns`, `CodexSessions`, `CodexHistory`): request correlation, the
  mark that allows one active turn, the leased session pool, and history trimming against a server class.
* **Goal guard** (`GoalGuard`), **transcript boundary** (`RewriteBoundary`), **Git parsers**
  (`GitParsers`), **broadcast hub** (`Hub`).
* **Cron** (`Calendar`, `CronField`, `CronSearch`, `CronWindow`, `CronTexts`, `CronRanges`, `CronMeaning`):
  parsing with 64-bit addition, the proleptic Gregorian calendar, the five-year search, and what whole texts
  mean. `Text`, `TextFacts` and `Options` hold shared pieces of Go's `strings`, `strconv` and error conventions.

Go maps and slices that code updates are fields of classes here; whatever the environment decides
(a failed write, a timer, a cancelled context, a lost message, an interleaving) is a step or a parameter.

## Where the code differs from what it promises

Each of these is proved, with the exact condition or with a run that shows it.

* A replay of a successful interruption is meant to queue its target's receipt again. If the target is
  neither in the table nor on disk, because its own receipt could not be saved before a restart, the
  replay writes a tombstone instead, so an operation that was reported as succeeded is then saved and
  reported as cancelled. No other replay changes more than the messages sent (`ReplayWritesExactly`,
  `ReplayCanCancelCompletedTarget`).
* A cron step close to 2^63 wraps in `value += step`, so the accepted field `59/9223372036854775807` also
  selects minute 57. A field is the union of its ranges exactly when no start plus step leaves 64 bits
  (`FieldIsItsRanges`, `LargestStepSelectsMore`, `WrappedMinuteIsSelected`).
* The comment in schedule.go:94 says that five years always suffice. From 1 March 2096 an expression for
  29 February alone, such as `0 0 29 2 *`, is refused although 2104 has one (`FailsExactlyWhen`,
  `LeapDayMissedAfter2096`, `LeapDayTextMissedAfter2096`).
* A turn interrupt reads the target's receipt without the table's lock, so it can confirm a stop while
  the turn has saved its receipt and has not closed `done` yet. This is the only way in which a turn can
  become terminal while it is held (`SafeReleaseOfTurns`, `UnlockedReadEndsHeldTurn`,
  `StopCanBeConfirmedBeforeDone`).
* A failed interrupt moves a thread back to running without asking whether its operation still runs.
  Between message handlings that cannot happen; after a handling that stopped half way it can, and no
  other message can do it (`FailedInterruptRevivesExactly`, `HalfHandledResultCanBeRevived`).
* An update waits for six kinds of operations and keeps exactly those out of its way. The Codex turns,
  `claude.thread.fork` and `claude.skills.list` check the pending flag too, but one that has passed the
  check runs on beside the update (`ExcludedExactlyWhenScanned`, `UnscannedKindEscapes`).
* An update staged over the executable that is running can be launched twice without a confirmation in
  between. That takes a package labelled newer than the binary it holds, while that binary's own file no
  longer has its hash (`AtMostOneLaunchPerConfirmation`, `HonestNeverStagesItself`,
  `SelfStagedBinaryLaunchesTwice`).
* Between `turn/start` and its reply the thread names no turn, so a late notification that an older turn
  ended clears the mark and lets a second start out (`ForeignTerminalClearsExactly`,
  `StaleTerminalAdmitsSecondStart`).
* Trimming a fork counts in 32 bits, so it ends at the requested turn exactly when fewer than 2^32 turns
  follow it (`TrimmedEndsAtTurn`).

## Model

| member | source | states |
|---|---|---|
| SafeRelease.SafeReleaseOfTurns | internal/agent/claude_interrupt.go:12-69 | In every run of gateway, wire and Agent, when an Agent message makes a turn terminal it never starts again, and no execution of it is between registration and `done`: always for the turn's own result, replay or probe reply, and for a stop unless it was confirmed by an unlocked receipt read while the turn was held |
| SafeRelease.WaitedStopIsStill | internal/agent/claude_interrupt.go:15-27 | A stop that waited for `done` is confirmed only when nothing holds the turn |
| SafeRelease.ExposedByUnlockedRead | internal/agent/claude_interrupt.go:28-34 | The exception is recorded exactly by the steps that read a receipt without the lock while the turn is held |
| SafeRelease.UnlockedReadEndsHeldTurn | internal/agent/claude_interrupt.go:28-34 | From every sound state where such a read can happen, the stop can reach the gateway before `done` is closed, and the gateway handles it as a confirmed stop |
| SafeRelease.StopCanBeConfirmedBeforeDone | internal/agent/client.go:658-674 | The exception is real: a whole run, from the empty system to the gateway's handling of the report, in which a turn becomes terminal between saving its receipt and closing `done` |
| SafeRelease.SpentForever | internal/agentgateway/gateway.go:1018-1087 | A turn that was claimed for delivery once can never arrive at the Agent a second time |
| SafeRelease.SysRunKeepsInv | internal/agent/gemini_interrupt.go:14-75 | Every receipt, result, probe reply and stop in transit or stored tells the truth about its turn, in every reachable state |
| OperationSafety.StartsExactlyWhenUnknown | internal/agent/client.go:281-310 | A looked-up operation starts exactly when it is neither in the table nor on disk, whatever pruning dropped, and only if it has no record in this process |
| OperationSafety.AtMostOncePerProcess | internal/agent/client.go:281-310 | Two starts of one operation ID have a crash between them, for every interleaving of duplicates, pruning and failed saves |
| OperationSafety.NeverStartsAfterReceipt | internal/agent/operation_cache.go:63-118 | With its receipt on disk an operation never starts again, in any process |
| OperationSafety.RestartRepeatsUnfinishedOperation | internal/agent/client.go:281-310 | Without a receipt the bound is per process only: a run that starts one operation twice across a crash |
| OperationSafety.ConfirmedMeansSettled | internal/agent/operation_interrupt.go:16-77 | An interruption succeeds, first or again in a replay, only for a target that is on disk or has completed in this process |
| OperationSafety.InterruptionIsFinal | internal/agent/operation_interrupt.go:16-77 | After a successful interruption, carried out first or again in a replay, the target had completed or never starts again, across pruning and, with a receipt or tombstone on disk, across restarts |
| OperationSafety.ReplayWritesExactly | internal/agent/operation_interrupt.go:16-77 | Every step of every replay, whatever fails: it changes more than the messages sent if and only if the target of a well-formed successful interruption is neither in the table nor on disk, the disk can be read and the save succeeds; the change is then that target's tombstone |
| OperationSafety.ReplayCanCancelCompletedTarget | internal/agent/operation_interrupt.go:60-76 | The exception is real: for every such operation a whole run in which it is reported as succeeded, its receipt is not saved, and a replay after a restart saves and reports it as cancelled |
| OperationSafety.ReplayOnlyRequeues | internal/agent/operation_interrupt.go:16-30 | When the target's receipt is on disk, can be read and the queue takes it, the replay queues that receipt and its own result again and changes nothing else |
| OperationSafety.ReplayOnlyRequeuesFromTable | internal/agent/operation_interrupt.go:16-30 | The same when the target's completed execution is still in the table |
| OperationSafety.ScanSeesWhoeverPassedTheGate | internal/agent/selfupdate.go:32-55 | Whoever passed the gate before the flag was set is registered and visible to the scan |
| OperationSafety.UpdateExclusion | internal/agent/selfupdate.go:32-55 | In every reachable state the pending flag has exactly one live owner and no scanned operation is in its body behind it |
| OperationSafety.UnscannedKindEscapes | internal/agent/selfupdate.go:38-41 | For every envelope of a kind that the update does not scan for there is a run with it in its body while the update is pending |
| OperationSafety.ExcludedExactlyWhenScanned | internal/agent/selfupdate.go:38-41 | A kind is excluded from running beside a pending update in every run if and only if the update scans for it |
| OperationSafety.ReceiptStaysForever | internal/agent/operation_cache.go:63-90 | In every run a receipt on disk stays on disk, across restarts |
| OperationSafety.RunKeepsInv | internal/agent/client.go:277-691 | The invariant of table, disk, handlers and update flag holds in every reachable state |
| OperationCache.PruneProtects | internal/agent/operation_cache.go:25-54 | Pruning never drops an active or unpersisted entry |
| OperationCache.PruneKeepsExactly | internal/agent/operation_cache.go:13-54 | Pruning leaves everything that is not completed, and at most 128 completed entries of at most 16 MiB together, none older than an hour |
| OperationCache.PruneDropsOldest | internal/agent/operation_cache.go:39-53 | No kept entry is older than a dropped young one, and the newest dropped one would not have fitted |
| OperationCache.KeptIsGreatest | internal/agent/operation_cache.go:25-54 | With distinct completion times the kept set contains every other unexpired newest-first set within 128 entries and 16 MiB |
| AgentClient.Client.PruneCompletedOperations | internal/agent/operation_cache.go:25-54 | The loops keep unexpired entries, newest first, a longest set within both limits, and terminate with true running totals |
| AgentClient.Client.DropExpired | internal/agent/operation_cache.go:27-38 | Drops exactly the expired completed entries and returns the true count and bytes of the rest |
| AgentClient.Client.DropOldestWhileOver | internal/agent/operation_cache.go:39-53 | Drops the oldest entries until both limits hold, and no more |
| AgentClient.Client.Oldest | internal/agent/operation_cache.go:40-49 | Finds an entry that completed no later than any other; the empty answer cannot happen |
| AgentClient.Client.LookupOrRegister | internal/agent/client.go:281-313 | Prunes, then replays a known operation or registers a new one, as one critical section |
| AgentClient.Client.InterruptOperation | internal/agent/operation_interrupt.go:32-77 | Refuses, waits, or confirms with a receipt or a tombstone written under the lock |
| AgentClient.Client.ReserveAgentUpdate | internal/agent/selfupdate.go:32-49 | Takes the update flag exactly when it is free and no scanned operation is active |
| AgentClient.Client.Publish | internal/agent/client.go:665-671 | Stores the result, closes `done` and prunes in one critical section |
| OperationReplies.ProbeAnswers | internal/agent/claude_interrupt.go:42-68 | In every sound state a probe is answered "active" if and only if a goroutine of the operation lies between registration and `done`, "lost" if and only if it is neither in the table nor on disk, with its result if it is done or on disk, and not at all if its receipt cannot be read |
| OperationReplies.OwnershipRepliesAreTrue | internal/agent/claude_interrupt.go:53-67 | In every run the first "lost" of an operation is queued only while nothing holds it and no receipt of it is on disk, and the first "active" only while something holds it |
| OperationReplies.HeldIsAnsweredActive | internal/agent/claude_interrupt.go:52-54 | In every reachable state a probe of a held operation is answered "active" and nothing else |
| OperationReplies.RunKeepsRecordsHeld | internal/agent/client.go:296-313 | In every reachable state each record that is not done belongs to a goroutine between registration and `done` |
| OperationReplies.BodyEndsExactly | internal/agent/client.go:645-654 | A result is succeeded, interrupted or cancelled if and only if the body completed, a turn was cancelled, or a read-only operation lost its context |
| OperationReplies.ResultIsRecorded | internal/agent/client.go:656-674 | What a body ends with is saved if the disk takes it, published in its record with that persistence, and sent |
| OperationReplies.RepetitionIsAnswered | internal/agent/client.go:281-295 | A repeated delivery of a completed operation runs nothing and is answered with its published result |
| OperationReplies.ReceiptIsAnswered | internal/agent/client.go:283-295 | One that is only on disk is answered with its receipt, or as failed if that cannot be read |
| OperationReplies.GateTurnsAwayExactly | internal/agent/client.go:318-364 | While an update is pending exactly the listed kinds are turned away, and a malformed skill command always |
| OperationReplies.InterruptionSettles | internal/agent/operation_interrupt.go:32-77 | What an interruption does for each state of its target: fail, wait, send the receipt, or write a tombstone |
| OperationReplies.WaitSettles | internal/agent/operation_interrupt.go:50-60 | A waiting interruption sends its target's result and succeeds if it could be queued; a deadline fails it |
| OperationReplies.TurnStopSettles | internal/agent/claude_interrupt.go:12-27 | A turn interrupt waits if and only if the table has an execution of its own family, and reports the turn as stopped once that is done |
| OperationReplies.LeavingSettles | internal/agent/operation_interrupt.go:55-59 | A waiter that leaves says nothing if it repeats a delivery, and reports a replayed interruption as failed |
| OperationReplies.UpdateReservesExactly | internal/agent/selfupdate.go:32-55 | An update takes the flag if and only if it is free and nothing scanned is active, and keeps it only for a restart |
| OperationReplies.KindsExactly | internal/protocol/operation_interrupt.go:8-15 | The kinds that each rule is about |
| AgentClient.Client.ReconcileOperations | internal/agent/claude_interrupt.go:37-69 | Each probed ID is answered by its own state: a running one "active", a done one with its result, one in neither place "lost"; no other ownership reply is queued |
| TurnOwnership.NoResurrection | internal/agentgateway/claude.go:57-71 | No Agent message of any kind changes a thread whose current operation is terminal |
| TurnOwnership.SettledUntilNewTurn | internal/agentgateway/claude.go:140-218 | Over a whole run a settled thread stays exactly as it is until a user queues a new turn on it |
| TurnOwnership.LostOwnershipNeverEnds | internal/agentgateway/claude.go:178-218 | Neither a probe reply nor an interrupt that lost its owner makes the turn terminal |
| TurnOwnership.EndedIsFinal | internal/agentgateway/gateway.go:694-764 | A terminal operation row never changes again |
| TurnOwnership.TurnsEndOnlyByReceipt | internal/agentgateway/gemini.go:104-204 | A turn ends only by its own result or by an interrupt that reports exactly it as stopped |
| TurnOwnership.FailedInterruptRevivesExactly | internal/agentgateway/claude.go:140-176 | On arbitrary rows and for every Agent message, a thread whose operation is over starts running again exactly by a failed, not disowned interrupt of its current turn while it is still being interrupted without recovery; on sound rows there is none |
| TurnOwnership.HalfHandledResultCanBeRevived | internal/agentgateway/gateway.go:701-711 | A handling that stopped between the two rows leaves a state that a failed interrupt revives |
| TurnOwnership.RunKeepsRowsSound | internal/agentgateway/gateway.go:694-764 | Busy threads have active operations, and interrupts point at their thread's turn, in every reachable state |
| TurnOutcomes.TurnResultSettles | internal/agentgateway/claude.go:156-166 | A result for a current, active turn leaves its thread idle if and only if it succeeded and was not being interrupted, stopped if and only if it was being interrupted or was cut short, broken if and only if it failed otherwise, and changes nothing else |
| TurnOutcomes.LateTurnMovesNoThread | internal/agentgateway/claude.go:164-169 | A result for a turn that is no longer current ends its row and moves no thread |
| TurnOutcomes.OtherResultsMoveNoThread | internal/agentgateway/gateway.go:694-760 | A result for any other kind, or for an operation that is over, moves no thread |
| TurnOutcomes.FirstEventSettles | internal/agentgateway/claude.go:57-71 | A first event marks the thread of its current, active turn running if it waits or runs, and does nothing else |
| TurnOutcomes.StartIsRecorded | internal/store/store.go:1952-1956 | A start marks exactly its own active operation as running |
| TurnOutcomes.InterruptRequestSettles | internal/store/claude.go:209-250 | A request to stop cancels a turn that was not sent, and otherwise queues one interrupt that names it |
| TurnOutcomes.StopEndsExactly | internal/agentgateway/claude.go:118-137 | An interrupt ends its turn if and only if its receipt names it and the turn is active, for Gemini also current and waiting for it; the turn is then cancelled and its thread stopped |
| TurnOutcomes.FailedInterruptSettles | internal/agentgateway/claude.go:138-153 | A disowned interrupt pauses the busy thread of a delivered turn, any other failure hands a waiting thread back, and a cancelled one moves nothing |
| TurnOutcomes.OwnershipReplySettles | internal/agentgateway/claude.go:178-218 | "Lost" pauses a busy thread of a delivered turn, "active" ends a pause, and neither does anything else |
| TurnOutcomes.RequestsAreAccepted | internal/store/claude.go:209-250 | A turn can be queued, interrupted or followed up in exactly the listed states of its thread |
| TurnOutcomes.UndisturbedTurn | internal/agentgateway/gateway.go:694-764 | Queued, sent, started, first event, result: an undisturbed turn ends its thread idle and touches no other row |
| TurnOutcomes.BodyEndReachesThread | internal/agent/client.go:645-654 | However the body of a turn ends on the Agent, its running thread becomes idle, stopped or broken by that end |
| TurnOutcomes.InterruptAnswerReachesThread | internal/agent/claude_interrupt.go:28-34 | An interrupt that finds nothing pauses the thread and leaves the turn active, one that finds the receipt ends it, and an unreadable receipt hands the thread back |
| TurnOwnership.Gateway.HandleOperationResult | internal/agentgateway/gateway.go:694-764 | The handling of a result, with its compare-and-set and the thread update, is the result step |
| TurnOwnership.Gateway.CompleteTurn | internal/agentgateway/claude.go:154-175 | A finished turn leaves its current thread idle, stopped or broken under exactly the stated conditions, and another thread alone |
| TurnOwnership.Gateway.CompleteInterrupt | internal/agentgateway/gemini.go:140-204 | A stop ends the named turn, a lost owner only pauses it, a failure hands it back |
| TurnOwnership.Gateway.UpdateOwnership | internal/agentgateway/claude.go:178-218 | A probe reply moves only the current, delivered turn's thread |
| TurnOwnership.Gateway.HandleInit | internal/agentgateway/claude.go:57-71 | A late init marks a thread running only while its operation is active and it is not being interrupted |
| TurnOwnership.Gateway.CompleteOperationIfActive | internal/store/store.go:1962-1973 | One caller moves an active operation to a terminal status, all others see nothing to do |
| TurnOwnership.Gateway.ClaimDelivery | internal/store/gemini.go:66-73 | A queued turn is claimed for delivery once |
| Version.ParseVersion | internal/buildinfo/version.go:175-193 | Accepts exactly three dot-separated non-negative numbers before a build or pre-release mark |
| Version.UpdateAvailable | internal/buildinfo/version.go:136-151 | True exactly when both parse, the current one supports self-update, and the target is lexicographically greater |
| Version.AtLeast | internal/buildinfo/version.go:161-173 | True exactly when both parse and the current version is not below the minimum |
| Version.VersionOfNumbers | internal/buildinfo/version.go:175-193 | Three numbers, after an optional `v` and before an optional mark, are exactly this version, first number first; a number beyond 64 bits is none |
| Version.NewerByNumbers | internal/buildinfo/version.go:136-151 | An update goes to the greater first, then second, then third number, and only from 0.2.0 on |
| Version.LessIsStrictTotalOrder | internal/buildinfo/version.go:136-193 | Versions are totally ordered |
| Version.NewerIsStrictOrder | internal/buildinfo/version.go:136-193 | The update relation is irreflexive, transitive and asymmetric |
| SelfUpdate.AtMostOneLaunchPerConfirmation | internal/agent/selfupdate.go:176-251 | In every run that does not stage the running executable, whatever is labelled, fails or crashes, between two launches of one staged binary it was staged again or confirmed healthy |
| SelfUpdate.LaunchesFollowNewerLabels | internal/agent/selfupdate.go:192-195 | In every run that does not stage the running executable, honest labels or not, every launch follows a manifest labelled strictly newer than the version that launches it |
| SelfUpdate.HonestLaunchesAreBoundedAndNewer | internal/agent/selfupdate.go:192-195 | With honest labels that bound holds in every run and each launch goes to a strictly newer version |
| SelfUpdate.HonestNeverStagesItself | internal/agent/selfupdate.go:59-78 | With honest labels the strict order of versions keeps the running executable from being staged |
| UpdateChecks.LaunchesAreChecked | internal/agent/selfupdate.go:186-219 | In every run, before each launch of a binary the same process has read its manifest and found that the binary matches its hash |
| UpdateChecks.BootLaunchesExactly | internal/agent/selfupdate.go:176-205 | A boot goes on to a launch if and only if the manifest can be read, the hash matches, it is not the running binary, it is labelled newer and was not left unconfirmed; otherwise it serves |
| UpdateChecks.BootDropsExactly | internal/agent/selfupdate.go:186-200 | A boot drops an unreadable or corrupt manifest, and a foreign one that is not newer or was tried, and no other |
| UpdateChecks.AcceptedOfferIsLaunched | internal/agent/selfupdate.go:59-101 | A newer, pending offer for another binary whose hash matches is staged and launched |
| UpdateChecks.OfferIsRefusedExactly | internal/agent/selfupdate.go:59-82 | An offer is turned down if and only if it is not newer, not pending, or the running binary itself with its hash |
| UpdateChecks.LaunchedUpdateIsConfirmed | internal/agent/selfupdate.go:234-251 | The launched binary boots into service, and its confirmation makes the manifest healthy |
| UpdateChecks.ConfirmsOwnManifestOnly | internal/agent/selfupdate.go:234-251 | A confirmation begins if and only if the manifest is the running binary's own and not healthy yet |
| UpdateChecks.ConfirmedUpdateIsRelaunched | internal/agent/selfupdate.go:176-211 | After a restart every older installed version launches the confirmed update again |
| UpdateChecks.FailedReplacementIsPending | internal/agent/selfupdate.go:201-211 | If the image cannot be replaced the manifest is pending again |
| SelfUpdate.UnconfirmedBinaryIsRolledBack | internal/agent/selfupdate.go:186-200 | A launched binary that died unconfirmed is dropped by the next boot of another executable, which serves, unless the running executable was staged |
| SelfUpdate.VersionsOnlyClimb | internal/agent/selfupdate.go:192-195 | Without a crash the process only moves to strictly newer executables |
| SelfUpdate.SelfStagedBinaryLaunchesTwice | internal/agent/selfupdate.go:72-101 | The condition is needed: for every accepted offer over the running binary whose own file fails its hash check there is a run that launches it twice after its last renewal |
| SelfUpdate.BootIsItsSteps | internal/agent/selfupdate.go:176-211 | A boot that nothing interrupts has the combined effect of its four steps |
| SelfUpdate.ActivationIsItsSteps | internal/agent/selfupdate.go:213-232 | The same for activating a staged update |
| SelfUpdate.Updates.ActivateCurrentUpdate | internal/agent/selfupdate.go:176-211 | Launches if and only if the manifest can be read, its hash matches, it is not the running binary, it is newer and was not tried before, and both writing and replacing work; a wrong hash drops the manifest |
| SelfUpdate.Updates.ActivateStagedUpdate | internal/agent/selfupdate.go:213-232 | Launches only the staged path, marking it first and unmarking it when the launch fails |
| SelfUpdate.Updates.ConfirmCurrentUpdate | internal/agent/selfupdate.go:234-251 | Confirms only the running executable's own manifest, once |
| LiveTurnSafety.EveryInstructionIsSettledOnce | internal/claudeadapter/steering.go:90-255 | In every interleaving each instruction is written at most once, its callers are woken at most once, and when the turn is done each was woken once and reported either applied or unconfirmed, never both |
| LiveTurnSafety.ClosedStreamLosesNothing | internal/claudeadapter/steering.go:196-232 | A stream closed by a result has no unapplied instruction, then or at the end |
| LiveTurnSafety.ClosedStreamTakesNothing | internal/claudeadapter/steering.go:196-255 | Once a stream is closed, by a result or at the end, every later run writes no instruction and no answer to it except the one line that the holder of the write lock had under way |
| LiveTurnSafety.CancelledQuestionStaysUnanswered | internal/claudeadapter/questions.go:111-180 | A question withdrawn unanswered is never answered in any later run |
| LiveTurnSafety.AnswersAreSentOnce | internal/claudeadapter/questions.go:111-166 | A question is sent at most one answer, the recorded one |
| LiveTurnSafety.RepeatedInstructionIsNotWritten | internal/claudeadapter/steering.go:90-100 | An instruction ID delivered again writes nothing, whatever happened in between |
| LiveTurnSafety.RunExtends | internal/claudeadapter/steering.go:165-184 | Content, outcomes, answers and the closing decision are never taken back |
| LiveTurnSafety.StepKeepsInv | internal/claudeadapter/steering.go:90-267 | Every critical section of callers and reader keeps the invariant |
| LiveTurnProgress.InitializedIsReady | internal/claudeadapter/steering.go:155-163 | Initialization makes the stream ready, and only a failed report ends the reader |
| LiveTurnProgress.SteerIsTakenExactly | internal/claudeadapter/steering.go:90-113 | With the write lock free an instruction is taken if and only if it is new, the stream is ready and open, and fewer than 32 were taken; nothing else changes |
| LiveTurnProgress.TakenSteerIsWritten | internal/claudeadapter/steering.go:90-131 | An instruction that was taken is written once with its content, and the lock is free again |
| LiveTurnProgress.LineIsWrittenOnce | internal/claudeadapter/steering.go:112-118 | An instruction is one write, and none if it could not be encoded |
| LiveTurnProgress.FailedSteerIsReported | internal/claudeadapter/steering.go:120-125 | A failed write wakes its caller with an error, unless the CLI has echoed the line |
| LiveTurnProgress.EchoSettles | internal/claudeadapter/steering.go:165-184 | The first echo wakes the callers, the first applied echo reports once, and a failed report ends the reader |
| LiveTurnProgress.ResultClosesIdle | internal/claudeadapter/steering.go:196-232 | A result closes the stream if and only if nothing can still use it and no turn is queued |
| LiveTurnProgress.HeldResultCloses | internal/claudeadapter/steering.go:257-267 | A result held back by background tasks is settled when the last one ends, unless progress came in between |
| LiveTurnProgress.QuestionHoldsStream | internal/claudeadapter/questions.go:26-92 | A new question holds the stream open until it is answered or cancelled |
| LiveTurnProgress.AnswerIsTakenExactly | internal/claudeadapter/questions.go:111-166 | An answer is taken if and only if it fits an open question of an open, live stream |
| LiveTurnProgress.TakenAnswerIsWritten | internal/claudeadapter/questions.go:111-166 | A recorded answer is reported and then written once; if the report fails it is not written |
| LiveTurnProgress.FailedAnswerIsWithdrawn | internal/claudeadapter/questions.go:111-166 | An answer whose write failed withdraws its question |
| LiveTurnProgress.CancelSettles | internal/claudeadapter/questions.go:168-180 | Cancelling marks a known question, and ends the reader if and only if its report failed |
| LiveTurnProgress.FinishSettles | internal/claudeadapter/steering.go:234-255 | The end of the process closes the stream, wakes every waiting caller with an error and reports what was not applied |
| ClaudeStream.Stream.AdmitSteer | internal/claudeadapter/steering.go:90-113 | Admits an instruction if and only if the stream was ready and open, the ID was new and fewer than 32 were taken; refuses a changed repetition and accepts an equal one |
| ClaudeStream.Stream.SettleSteer | internal/claudeadapter/steering.go:120-132 | A failed write fails the instruction unless the CLI has already echoed it |
| ClaudeStream.Stream.Acknowledge | internal/claudeadapter/steering.go:165-184 | Wakes the callers on the first echo and reports the application once |
| ClaudeStream.Stream.Result | internal/claudeadapter/steering.go:196-232 | The search loops close the stream exactly when there is no background task, queued turn, unapplied instruction or open question |
| ClaudeStream.Stream.BackgroundTasks | internal/claudeadapter/steering.go:257-267 | The last background task settles the result it held back |
| ClaudeStream.Stream.Finish | internal/claudeadapter/steering.go:234-255 | The loop wakes every waiting caller and reports every unapplied instruction |
| ClaudeStream.Stream.AdmitAnswer | internal/claudeadapter/questions.go:111-139 | Records the first valid answer of an open question and accepts only the same one again |
| CodexRequests.OneRemoverCompletesARequest | internal/codexadapter/adapter.go:1122-1150 | A request leaves the table by exactly one of response, reset and caller, its channel closes at most once, and it returns its own ID's message or learns of a reset |
| CodexRequests.RemoverIsFinal | internal/codexadapter/adapter.go:1207-1217 | Nobody removes a request a second time |
| CodexRequests.NoCallerIsForgotten | internal/codexadapter/adapter.go:1344-1366 | A waiting caller is always still in the table, about to be answered, or able to return |
| CodexRequests.CallerSettles | internal/codexadapter/adapter.go:1122-1150 | A written request waits; one that could not be written or was given up leaves the table and returns why |
| CodexRequests.BeginSettles | internal/codexadapter/adapter.go:1122-1136 | A request takes the next ID and is in the table before it is written |
| CodexRequests.ResetSettles | internal/codexadapter/adapter.go:1344-1366 | The end of a stale process changes nothing; that of the current one empties the table and disconnects every waiting caller |
| CodexRequests.Requests.HandleResponse | internal/codexadapter/adapter.go:1207-1217 | Takes the entry, then delivers and closes its channel; an unknown response is dropped |
| CodexRequests.Requests.ResetProcess | internal/codexadapter/adapter.go:1344-1366 | The loop closes every pending channel once, and only for the current process |
| CodexTurns.StartsNeedAnEnd | internal/codexadapter/adapter.go:675-719 | `turn/start` goes out only for an idle thread, and twice only if in between the start failed, the process was lost, the known turn ended, or a terminal notification came while it or the thread named no turn |
| CodexTurns.MarkFollowsExactly | internal/codexadapter/adapter.go:675-719 | The mark after every kind of step, written out |
| CodexTurns.FreedThreadStarts | internal/codexadapter/adapter.go:675-719 | A thread that is new, or whose start failed, whose process was lost or whose known turn ended, can start one turn |
| CodexTurns.StartsNeedTheKnownEnd | internal/codexadapter/adapter.go:1257-1276 | Without such unattributable notifications only a failed start, a lost process or the end of the known turn lets another start out |
| CodexTurns.ForeignTerminalClearsExactly | internal/codexadapter/adapter.go:1264-1270 | The end of another turn clears the mark if and only if the thread's turn ID or the notification's is empty |
| CodexTurns.StaleTerminalAdmitsSecondStart | internal/codexadapter/adapter.go:680-680 | From every table with an idle thread, a stale notification between two starts lets both out |
| CodexTurns.Table.StartPrepared | internal/codexadapter/adapter.go:675-684 | Checking and marking a thread is one compare-and-set |
| CodexTurns.Table.FinishStart | internal/codexadapter/adapter.go:685-718 | An error or an empty turn ID clears the mark |
| CodexTurns.Table.HandleNotification | internal/codexadapter/adapter.go:1257-1276 | A terminal notification is ignored exactly when it and the thread name two different turns |
| CodexSessions.LeasedIsNeverClosed | internal/codexadapter/sessions.go:51-89 | In every run no leased adapter is closed or about to be closed by the reaper, a reconfiguration or a shutdown |
| CodexSessions.AdaptersCloseOnce | internal/codexadapter/sessions.go:224-264 | No adapter is closed twice |
| CodexSessions.NoAdapterLeaks | internal/codexadapter/sessions.go:180-264 | In every run each adapter that was made is in the pool, taken out to be closed, or closed, and only one of these |
| CodexSessions.WriterSettles | internal/codexadapter/sessions.go:180-208 | A reconfiguration is refused if and only if the pool is shut or has an active turn; one that failed keeps every session, one that worked replaces all |
| CodexSessions.ReapedIsUnheld | internal/codexadapter/sessions.go:224-239 | An expired session without an active turn is reaped exactly when no caller holds it |
| CodexSessions.AcquireGivesExactly | internal/codexadapter/sessions.go:51-78 | A caller gets the shared adapter if and only if it names no thread, the thread's own adapter if there is one, and otherwise one never used before |
| CodexSessions.OneAdapterPerThread | internal/codexadapter/sessions.go:51-78 | In every run two callers have the same adapter if and only if they named the same thread |
| CodexSessions.ReleaseUndoesAcquire | internal/codexadapter/sessions.go:51-78 | Releasing a lease undoes taking it; a session that was new stays, unused |
| CodexSessions.Sessions.Acquire | internal/codexadapter/sessions.go:51-78 | Takes in place the lease that `AcquireGivesExactly` describes, or none once the pool is shut |
| CodexSessions.Sessions.Release | internal/codexadapter/sessions.go:72-77 | Releasing takes back exactly this lease |
| CodexSessions.Sessions.ReapIdle | internal/codexadapter/sessions.go:224-239 | The loop removes exactly the reapable sessions and returns their adapters |
| CodexSessions.Sessions.Reconfigure | internal/codexadapter/sessions.go:180-196 | Refuses while any session has an active turn, otherwise collects every adapter |
| CodexHistory.RevertThreadTurns | internal/codexadapter/adapter.go:608-659 | By rollback or by paging and reverting, success drops exactly the last turns asked for, and failure of a reliable server changes nothing |
| CodexHistory.TrimLegacyFork | internal/codexadapter/thread_forks.go:85-100 | Trims to the requested finished turn by its position in the whole history |
| CodexHistory.TrimForkToTurn | internal/codexadapter/thread_forks.go:18-83 | By inline turns, paging or reading, for any page sizes and cursors: a reliable server is trimmed exactly when the turn exists and is finished, and the loop terminates |
| CodexHistory.TrimmedEndsAtTurn | internal/codexadapter/thread_forks.go:93-96 | The trimmed history ends at the requested turn if and only if fewer than 2^32 turns followed it |
| CodexHistory.FinishedExactly | internal/codexadapter/thread_forks.go:85-100 | A turn in the history can be trimmed to if and only if it is finished |
| CodexHistory.AbsentIsUnfinished | internal/codexadapter/thread_forks.go:77-79 | Reaching the end of the pages means that the turn is not in the history |
| GoalGuard.FingerprintMeansSameActivity | internal/geminiadapter/goal.go:40-64 | Two rounds have one fingerprint exactly when they show the same activity, however message text was chunked |
| GoalGuard.TextInjective | internal/geminiadapter/goal.go:54-64 | The `kind:len:value` encoding can be read back |
| GoalGuard.EncodeInjective | internal/geminiadapter/goal.go:54-54 | One record can be split off the front in one way only |
| GoalGuard.DecimalInjective | internal/geminiadapter/goal.go:54-54 | Lengths are printed unambiguously |
| GoalGuard.ThreeInARow | internal/geminiadapter/goal.go:114-126 | Counting to three equal fingerprints means that the last three rounds look the same |
| GoalGuard.StreakCountsLastEqual | internal/geminiadapter/goal.go:89-97 | The repetition counter is the length of the equal tail |
| GoalGuard.TextMeansSameCall | internal/geminiadapter/goal.go:66-89 | Call texts are joined without lengths and still equal texts are equal calls, since input, status and output are one-line JSON |
| GoalGuard.CallsInARow | internal/geminiadapter/goal.go:89-97 | Counting to n equal texts means that the last n compared calls are the same call |
| GoalGuard.ContainsExactly | internal/geminiadapter/goal.go:86-86 | A text contains another if and only if it stands between two others |
| GoalGuard.MayRepeatExactly | internal/geminiadapter/goal.go:86-86 | A call may repeat if and only if one of the two names stands in its text |
| GoalGuard.Goal.FinishRound | internal/geminiadapter/goal.go:102-127 | Without a report or an earlier stop it stops exactly when the last three rounds show the same activity |
| GoalGuard.Goal.ToolFinished | internal/geminiadapter/goal.go:78-100 | Stops exactly when the last eight compared calls are one and the same call with one result |
| GoalGuard.Goal.RecordActivity | internal/geminiadapter/goal.go:40-64 | Recording activity keeps buffer and hash input those of the round so far |
| GoalGuard.Continue | internal/geminiadapter/acp.go:482-550 | The loop sends prompts until the first that ends it, and at most the larger of 0 and the limit plus one |
| RewriteBoundary.Find | internal/claudeadapter/rewrite.go:85-154 | The resume point is found exactly when it exists; a bad line, a read error or a cancellation gives none |
| RewriteBoundary.BoundaryExactly | internal/claudeadapter/rewrite.go:118-153 | The session restarts if and only if the located prompt has no parent, and resumes if and only if its parent is a finished assistant message with a complete history of its own |
| RewriteBoundary.OneLineIsLocated | internal/claudeadapter/rewrite.go:105-126 | A line is located by its prompt if and only if it is kept, has exactly the prompt, and was written in the turn's interval |
| RewriteBoundary.LastLineIsLocated | internal/claudeadapter/rewrite.go:105-120 | By its ID the last line of the transcript with that ID is located |
| RewriteBoundary.ResumePointIsSafe | internal/claudeadapter/rewrite.go:118-153 | A resume point is the located prompt's own parent, an assistant message that did not stop for a tool, whose parents reach a root inside the transcript without the edited message; the fallback fits one line only |
| RewriteBoundary.WalksToRoot | internal/claudeadapter/rewrite.go:137-152 | The walk ends on any transcript and succeeds exactly when an acyclic chain to a root avoids the edited message |
| RewriteBoundary.OnlyCandidate | internal/claudeadapter/rewrite.go:118-126 | A single candidate is the only line of the transcript that fits |
| RewriteBoundary.NoCandidates | internal/claudeadapter/rewrite.go:109-114 | No candidate means that no line fits |
| RewriteBoundary.ByIdIsLastLine | internal/claudeadapter/rewrite.go:105-108 | The index holds the last kept line of every ID |
| RewriteBoundary.ImagesAreSkipped | internal/claudeadapter/rewrite.go:66-80 | Images make no difference to a prompt wherever they are; any other block that is not text refuses it |
| RewriteBoundary.PromptIsItsText | internal/claudeadapter/rewrite.go:57-83 | A prompt is the text that a user typed, or its text blocks on lines of their own |
| RewriteBoundary.UserPrompt | internal/claudeadapter/rewrite.go:57-83 | The prompt of a user message joins its text blocks and refuses anything but text and images |
| GitParsers.ChangesRoundTrip | internal/gitrepository/changes.go:44-81 | Parsing recovers every list of one-path and two-path records in order, each path in its place, minus ignored files |
| GitParsers.ListWorkspaceChanges | internal/gitrepository/changes.go:44-81 | The index loop accepts and refuses exactly what the grammar of entries does |
| GitParsers.StatusExactly | internal/gitrepository/changes.go:143-162 | Each status if and only if its codes are there and none that goes before it |
| GitParsers.RecordIsReported | internal/gitrepository/changes.go:44-81 | One printed record is reported with its paths, status and both flags, and not at all if it is ignored |
| GitParsers.MovedHasTwoPaths | internal/gitrepository/changes.go:68-77 | Renames and copies have two paths, and two-path records are moves or conflicts |
| GitParsers.CommitsRoundTrip | internal/gitrepository/repository.go:506-575 | Parsing recovers every list of six-field records, with or without a final newline |
| GitParsers.ParseCommits | internal/gitrepository/repository.go:537-575 | The loop over six fields at a time is the recursive reading of the output |
| GitParsers.CommitExactly | internal/gitrepository/repository.go:544-575 | A commit is read if and only if its name and its parents' names are object names and its time can be read |
| GitParsers.ObjectIDExactly | internal/gitrepository/repository.go:798-809 | Object names are 40 or 64 lower-case hexadecimal digits |
| GitParsers.TrimmedBetween | internal/gitrepository/repository.go:548-548 | Line ends are taken off both ends of a name, and nothing else |
| GitParsers.SpaceIsRecognised | internal/gitrepository/repository.go:541-541 | The UTF-8 bytes of every white-space character are one separator |
| GitParsers.RecognisedIsSpace | internal/gitrepository/repository.go:541-541 | And nothing else is |
| GitParsers.SplitFields | internal/gitrepository/repository.go:538-538 | Fields ended by NUL are split back into themselves |
| GitParsers.WordsOfSpaced | internal/gitrepository/repository.go:556-564 | A list of object IDs separated by spaces is recovered |
| Hub.NoSilentLoss | internal/realtime/hub.go:17-62 | With concurrent publishers a registered subscriber was sent every completed publication since it subscribed, each once, or is about to be disconnected |
| Hub.MissedMeansDisconnected | internal/realtime/hub.go:36-62 | A subscriber that missed a publication is disconnected before that publication returns |
| Hub.ChannelsCloseOnce | internal/realtime/hub.go:27-34 | A channel is closed exactly once, when its subscriber leaves |
| Hub.StaleListSparesLaterSubscribers | internal/realtime/hub.go:54-61 | A late list of stalled subscribers disconnects nobody who subscribed later or was served |
| Hub.SendSettles | internal/realtime/hub.go:36-50 | An event is sent if and only if fewer than 256 wait, and otherwise the subscriber is listed as stalled |
| Hub.SubscribersSettle | internal/realtime/hub.go:17-34 | Joining and leaving wait for publications that are being sent, and then do exactly that |
| Hub.BeginSettles | internal/realtime/hub.go:36-40 | A publication goes to everyone who is registered when it begins |
| Hub.Broadcast.Publish | internal/realtime/hub.go:36-62 | Everyone with room gets the event, everyone without is disconnected |
| Hub.Broadcast.Subscribe | internal/realtime/hub.go:17-25 | Identifiers are never used again |
| Hub.Broadcast.Unsubscribe | internal/realtime/hub.go:27-34 | Closes a registered channel, and only once |
| CronField.FieldIsItsRanges | internal/schedule/schedule.go:114-178 | An accepted field is the union of its stepped ranges, with 7 read as Sunday, if and only if no start plus step overflows |
| CronTexts.LargestStepSelectsMore | internal/schedule/schedule.go:166-172 | The accepted field `59/9223372036854775807` selects minute 57, which its range does not declare |
| CronTexts.WrappedMinuteIsSelected | internal/schedule/schedule.go:51-76 | So an accepted five-field expression that names minute 59 alone selects minute 57 of every hour |
| CronField.FieldIsUsable | internal/schedule/schedule.go:173-177 | An accepted field has a value of its range, and all of them when it is a star |
| CronField.ParseField | internal/schedule/schedule.go:114-178 | The parser accepts exactly the lists whose items are all well formed, and terminates even when the addition wraps |
| CronField.AddStride | internal/schedule/schedule.go:166-172 | The loop adds exactly the visited values |
| CronRanges.RangeField | internal/schedule/schedule.go:138-171 | The text `a-b` is accepted if and only if minimum <= a <= b <= maximum, and holds every value from a to b, with 7 as Sunday |
| CronRanges.SteppedRangeField | internal/schedule/schedule.go:120-172 | The text `a-b/k` is accepted if and only if also 1 <= k < 2^63, and holds every k-th value unless a plus k overflows |
| CronRanges.SteppedStarField | internal/schedule/schedule.go:120-172 | The text `*/k` holds every k-th value of the whole range and does not count as a star |
| CronRanges.OneNumberField | internal/schedule/schedule.go:155-165 | A number is accepted if and only if it lies in the range, and holds itself alone |
| CronRanges.ListField | internal/schedule/schedule.go:119-123 | A list is accepted if and only if both parts are, and holds what either holds |
| CronMeaning.AcceptedExactly | internal/schedule/schedule.go:51-75 | Without a shorthand an expression is accepted if and only if it has five accepted fields |
| CronMeaning.SelectsExactly | internal/schedule/schedule.go:97-110 | A minute is selected by minute, hour, month and the day rule: both day fields if one is a star, either if none is |
| CronMeaning.MacroSelects | internal/schedule/schedule.go:42-50 | The four shorthands, in any case of letters, select every hour, midnight, Sunday's midnight and the first midnight of the month |
| CronMeaning.LowerLetter | internal/schedule/schedule.go:42-42 | A capital stands for its letter, and two other characters have an ASCII letter as lower case |
| CronMeaning.LowerTogether | internal/schedule/schedule.go:42-42 | Each character is lowered by itself |
| CronMeaning.WeekdayMornings | internal/schedule/schedule.go:29-76 | The text `0 9 * * 1-5` selects nine o'clock from Monday to Friday and nothing else |
| CronMeaning.EitherDay | internal/schedule/schedule.go:100-106 | The text `0 0 13 * 5` selects the midnights that start a Friday or a 13th |
| CronMeaning.IntervalExactly | internal/schedule/schedule.go:34-41 | An interval is accepted if and only if its duration is at least a minute |
| TextFacts.WhiteSpaceExactly | internal/schedule/schedule.go:115-115 | White space is the set of 25 characters that Unicode gives |
| TextFacts.TrimsBetween | internal/schedule/schedule.go:115-115 | White space is trimmed off both ends, however much there is, and nothing else |
| TextFacts.SignedNumber | internal/schedule/schedule.go:131-131 | A sign is read with a number of up to 64 bits, and not alone |
| TextFacts.NoNumber | internal/schedule/schedule.go:131-131 | Anything but digits after the sign is no number |
| TextFacts.PrefixExactly | internal/schedule/schedule.go:34-34 | Having a prefix means being that text with something behind it |
| CronField.ParseItem | internal/schedule/schedule.go:120-165 | One list item gives its base, range and step, or nothing, by the reading whose meaning `CronRanges` states |
| CronSearch.Parse | internal/schedule/schedule.go:29-76 | Intervals of at least a minute, four macros, or five fields |
| CronSearch.Search | internal/schedule/schedule.go:93-111 | Returns the least selected minute strictly after the given instant, and fails exactly when the window holds none |
| CronSearch.AcceptedIsUsable | internal/schedule/schedule.go:51-75 | Every accepted expression selects at least one minute, hour, day, month and weekday |
| CronWindow.FailsExactlyWhen | internal/schedule/schedule.go:93-111 | The search fails if and only if the weekday is free and no selected date exists, or only 29 February does and the window lies between the leap days around a century without one |
| CronWindow.FiveYearsSuffice | internal/schedule/schedule.go:94-96 | From 1 March 1904 to 28 February 2096 only impossible dates fail |
| CronWindow.LeapDayMissedAfter2096 | internal/schedule/schedule.go:94-96 | From 1 March 2096 a search for 29 February fails although one follows |
| CronTexts.LeapDayTextMissedAfter2096 | internal/schedule/schedule.go:93-111 | The text `0 0 29 2 *` is accepted, and searching it from 1 March 2096 fails although a selected minute follows |
| CronWindow.NextFailsExactlyWhen | internal/schedule/schedule.go:78-111 | The same condition for every accepted text |
| CronWindow.Next | internal/schedule/schedule.go:78-112 | Parsing and searching together, for text |
| Calendar.DateOf | internal/schedule/schedule.go:98-107 | Every day number has a real date with that day number |
| Calendar.DatesAreOrdered | internal/schedule/schedule.go:98-107 | Dates and day numbers correspond one to one and in order |
| Calendar.WeekdayIsKnown | internal/schedule/schedule.go:101-101 | 1 January 1970 was a Thursday, and the days of the week follow one another |
| Calendar.MonthsAreKnown | internal/schedule/schedule.go:98-107 | Every month has its known length |
| Calendar.NextYear | internal/schedule/schedule.go:98-107 | Years have 365 or 366 days by the Gregorian rule |

## Left out

- Transport, TLS, gRPC, HTTP, SQL drivers, JSON and gzip codecs, hashing and file calls are atomic steps that may fail.
- Timers and deadlines fire at any step; wall-clock bounds are not stated.
- `internal/store` beyond the guarded updates that the models need: its compare-and-sets are atomic steps, and a failed database statement inside a handling appears only in `HalfHandledResultCanBeRevived`.
- Manual "confirm stopped", HTTP-side queuing beyond new turns and interrupts, Gemini goal rows, commits of rewritten sessions, and operations that reserve a source thread for a fork or worktree.
- Server identity checks in the gateway: the model has one server.
- Bodies of operations other than turns, interrupts, updates and the read-only kinds are one step that completes or fails.
- `parseStatus`, `parseBranches` and the other Git readers in repository.go, and path normalisation, which is a parameter of the status parser.
- Invalid UTF-8 and Unicode case folding outside the characters that lower to ASCII.
- `@every` durations are read by a parameter that stands for `time.ParseDuration`; time zones other than UTC are not modelled, so daylight saving is not either.
- Instants are unbounded integers: the range of `time.Time` is not modelled.
- Approval and other server requests of the Codex adapter, event emission and its order, and process start.
- Registering live input streams by operation, and the answers that a stream sends for refused tool requests.
- Codex servers that page unfaithfully: `trimForkToTurn` ends only if they stop naming new turns.
- LiveTurnSafety.EveryInstructionIsSettledOnce: counts reports that were handed to `emit`; a report whose `emit` failed is counted as made, as the code does not try again.
- CodexSessions.LeasedIsNeverClosed: adapters with a turn that a notification started without a lease may be closed, as in the code.
- OperationSafety.ReplayOnlyRequeues: states what is queued again when the receipt can be read; an unreadable one is refused, and a missing one gets a tombstone, as in the code (`ReplayWritesExactly`).
- GoalGuard.FingerprintMeansSameActivity: takes SHA-256 as injective.
- Hub.Broadcast.Publish: one publication with no other publisher or reader in between; the interleavings are those of `Hub.State`, about which the other rows speak.
