# CronCompose deploy pipeline: a verified model

CronCompose deploys apps to servers through an agent. This project models the deterministic logic of that
pipeline in Dafny and proves what the pieces promise, alone and together:

- **Editor to agent.** The web editor builds, repairs, edits and checks deploy flows (waves of app phases);
  the agent executes them with one activation of the new release. `FlowModel` has the shared vocabulary,
  `FlowOrder`, `FlowRepair`, `Repair*`, `FlowEdit`, `FlowBlocks`, `FlowDefault`, `FlowDefaultOrder`,
  `FlowKeys` and `FlowWire` the editor, `ScriptSplit` the two install-script splitters, `FlowRun` and
  `FlowRunner` the executor, `FlowRunReads` how it reads a command, `FlowRunWave` and `FlowRunExact` what a
  wave and a whole run do and report, `FlowRunStages`, `FlowRunOrder`, `FlowRunRace`, `FlowRunWork` and
  `FlowRunOnce` what holds of every execution, `FlowRunExamples` commands on which it does what nobody wants.
- **Durable state.** `ConfigApply` and `ConfigSafety` (config writes with rollback), `Release` and
  `ReleaseNames` (release directories and the `current` link), `Outbox`, `OutboxKeys`, `OutboxProtocol`,
  `OutboxDrainers` and `OutboxDisk` (the agent's persistent queue, under overlapping drainers and crashes).
- **Runs.** `RunKeys` and `RunKeysKept` (retries and log keys), `Admission` (the per-job gate under
  concurrency), `Scheduler` (the job index against the per-timezone crons).
- **Text.** `DotEnv*` (the .env writer and reader), `Chunks`, `SseCli`, `SseWeb`, `SseWire` and `SseExact`
  (event streams from the server to both readers), `PumpOutput` and `LogTail` (log streaming), `Grouping`,
  `StartWaves`, `DeployOrder` and `BoardMove` (start waves and their board), `Progress`, `ProgressRules`,
  `ProgressLines`, `ProgressOrder` and `ProgressPercent` (the live progress rail). `Seqs`, `Text` and
  `Lexical` (lexicographic order) are shared vocabulary.

Where the original updates state step by step, the model does too: classes with fields (`Runner`, `Box`,
`Outbox`, `Layout`, `Runs`, `Scheduler`, `StreamWriter`) or methods with loops, each proved against a
specification function, about which the lemmas speak. What the operating system, git, the network or a
clock decides is a parameter, so a statement about every parameter is a statement about every execution;
concurrency is a state machine over its atomic steps. Check everything with `dafny verify dfyconfig.toml`.

Some promises are false of the code as written. For each of these the model keeps the code, and there is a
lemma with a concrete failing input and one with the exact condition:

| promise that fails | failing input | holds exactly when |
|---|---|---|
| a repair keeps a flow in order | `RepairCanBreakOrder` | `RepairOrdered`, `RepairKeepsOrder` |
| a checked flow runs each app's phases in order | `CleanupBeforeInstall` | `RunsInOrderExact` |
| editor and agent split a script alike | `SplittersDiffer` | `HalvesAgree` |
| the agent runs every command of a script | `NothingCovered` | `CoverageExact` |
| a failed install keeps the old release live | `FailedInstallGoesLive` (it does under "stop": `FailedInstallStops`) | `ActivationExact` |
| dragging an entry keeps it | `DraggedAway` | `MoveConserves` |
| the outbox sends in order | `OverlapReorders` | `OneDrainerExact`, and for reconnecting drainers whenever `SentInOrder` |
| the greatest release name is the newest | `TenBeforeTwo`, `LaterCommitFirst` | `GreaterName`, `SameSecondOrder` |
| a rejected config does not outlive its apply | `RejectedOutlives` | `RejectedStays` |
| a .env file reads back as what was written | `LineBreakLost`, `CommentKeyLost` | `DotEnvExact.RoundTrip` |
| every log item is stored | `LineLost` | `LostExactly` |
| an enabled job's timezone runs | `FirstJobNeverRuns` | `StartThenApply` |
| a done step stays done | `StartTakenBack` | `DoneStaysDone` |

The comment at web/lib/deploy-progress.ts:688-689 expects steps still active after a failure, and there are
none (`NothingLeftActive`).

## Model

| member | source | states |
|---|---|---|
| `FlowOrder.FlowOrderError` | web/lib/deploy-flow.ts:262-287 | the check passes exactly on flows where no wave mixes release sides and every app meets its phases in rank order; a reported position is the first violation, everything before it being fine |
| `FlowOrder.ScanWave` | web/lib/deploy-flow.ts:276-284 | one wave of the check stops exactly at the first entry whose app has already met a later phase, and otherwise records the highest phase met by each app |
| `FlowRepair.InsertMissingTask` | web/lib/deploy-flow.ts:188-224 | one insertion: before the first wave with a later phase of the app, joining the wave before it when that is on the same side of the release, else in a wave of its own |
| `FlowRepair.DropUnexpected` | web/lib/deploy-flow.ts:166-175 | one pass with a shared set of seen keys keeps the first occurrence of each expected entry in its wave and drops the rest |
| `FlowRepair.ReconcileFlow` | web/lib/deploy-flow.ts:157-185 | the repair loop as written is filter, then one insertion for each missing entry in the order blocks list them, then a lone empty wave if nothing is left |
| `RepairOrder.InsertOrder` | web/lib/deploy-flow.ts:188-224 | an insertion into an ordered flow keeps it ordered if and only if no wave already holds both an earlier and a later phase of that app |
| `RepairOrder.FillInOrder` | web/lib/deploy-flow.ts:177-185 | any number of insertions, splicing any waves: the result is ordered exactly when the flow was and no wave straddles a missing entry |
| `RepairOrder.InsertShape` | web/lib/deploy-flow.ts:188-224 | a missing task joins the wave before the first one with a later phase of its app, or else the last wave, exactly when all of that wave is on its side of the release; otherwise it gets a wave of its own there |
| `RepairExact.RepairIsExact` | web/lib/deploy-flow.ts:157-185 | a repaired flow holds every expected (block, phase) exactly once and nothing else |
| `RepairExact.RepairOrdered` | web/lib/deploy-flow.ts:157-224 | the repaired flow is ordered exactly when what was kept is ordered and straddles no missing entry |
| `RepairExact.RepairKeepsOrder` | web/lib/deploy-flow.ts:157-287 | a flow without order error comes back without one unless one of its waves straddles a missing entry |
| `RepairStable.RepairKeepsSurvivors` | web/lib/deploy-flow.ts:157-224 | removing what was inserted gives back exactly what was kept: old waves, ids and order untouched |
| `RepairStable.RepairFixpoint` | web/lib/deploy-flow.ts:157-185 | the repair changes nothing, ids included, exactly on flows that already hold each expected entry once |
| `RepairStable.RepairIdempotent` | web/lib/deploy-flow.ts:157-185 | repairing twice is repairing once |
| `RepairStable.RepairCanBreakOrder` | web/lib/deploy-flow.ts:191-217 | witness: with install and cleanup of an app in one wave and build missing, an ordered flow is repaired into one that is not |
| `FlowEdit.MoveConserves` | web/lib/deploy-flow.ts:235-256 | with distinct ids, dragging keeps the multiset of entries exactly when the target id names one wave, or nothing moves |
| `FlowEdit.MoveToNowhere` | web/lib/deploy-flow.ts:248-255 | an unknown target wave loses the dragged entry and only that |
| `FlowEdit.DraggedAway` | web/lib/deploy-flow.ts:235-256 | witness: a flow of one entry is empty after dragging it to a wave that is not there |
| `FlowEdit.MoveFrame` | web/lib/deploy-flow.ts:235-256 | apart from the dragged entry a move changes no wave, id or order |
| `FlowEdit.MoveLands` | web/lib/deploy-flow.ts:246-254 | where the dragged entry ends up in its target wave |
| `FlowEdit.RepairKeepsIdsUnique` | web/lib/deploy-flow.ts:157-224 | entry ids stay distinct through a repair |
| `FlowKeys.KeyReads` | web/lib/deploy-flow.ts:162-181 | cutting a key at its last colon gives back block id and phase, whatever characters the id has |
| `FlowKeys.KeysDiffer` | web/lib/deploy-flow.ts:162-170 | two entries share a key only if they are the same (block, phase) |
| `FlowBlocks.TasksAgenda` | web/lib/deploy-flow.ts:87-111 | a block contributes distinct phases of itself, in rank order |
| `FlowBlocks.InstallAndBuild` | web/lib/deploy-flow.ts:59-96 | a block asks for a build exactly when some command of its script does not install, and for an install exactly when some command does or a script that is not blank holds no command |
| `FlowBlocks.LaterPhases` | web/lib/deploy-flow.ts:96-109 | of the other phases a block asks for cleanup, pre-start and health exactly when their text is not blank, for start exactly under pm2, systemd or docker, and for run exactly with a run command or one of these |
| `FlowDefault.ExpectedSpec` | web/lib/deploy-flow.ts:159-164 | what blocks expect lists nothing twice and, with distinct ids, each app in rank order |
| `FlowDefault.BlocksAskWell` | web/lib/deploy-flow.ts:87-111 | the contribution of real blocks meets what default flow and repair rely on |
| `FlowDefault.DefaultFlowSound` | web/lib/deploy-flow.ts:121-154 | the default flow has no order error, holds every expected entry once, and is left alone by a repair |
| `FlowDefaultOrder.DefaultOrder` | web/lib/deploy-flow.ts:121-154 | which of two tasks comes in the earlier wave of the default flow: pre-release phases first, each in turn over all apps, then start groups from the lowest, phases in turn within each; within a wave tasks keep the order of the blocks |
| `FlowDefaultOrder.ExpectedInOrder` | web/lib/deploy-flow.ts:159-164 | blocks expect exactly their own tasks, block after block |
| `FlowWire.WireRoundTrip` | web/lib/deploy-flow.ts:325-360 | loading what was saved of a complete flow gives a complete flow, none exactly when there was no entry to save, and the same content minus empty waves whenever each app's name leads back to its block |
| `FlowWire.LoadsComplete` | web/lib/deploy-flow.ts:341-360 | whatever a nonempty spec says, unknown names and phases included, the flow loaded from it holds each expected entry exactly once |
| `FlowWire.LoadsOne` | web/lib/deploy-flow.ts:350-356 | a task is loaded exactly when some block has its name and its phase is known, and left out otherwise |
| `FlowWire.LoadsEach` | web/lib/deploy-flow.ts:348-358 | the tasks of a wave are loaded each for itself and in their order, whatever comes before them |
| `FlowWire.NameIs` | web/lib/deploy-flow.ts:330-337 | on the wire an app goes by the name of the last block with its id, or by "app" if that has none |
| `FlowWire.ByNameIs` | web/lib/deploy-flow.ts:346-352 | of several blocks with one name the last is the one loaded |
| `FlowWire.RepairedWireRoundTrip` | web/lib/deploy-flow.ts:157-360 | every repaired flow survives the wire when ids are distinct and names distinct and nonempty |
| `FlowWire.DistinctNamesResolve` | web/lib/deploy-flow.ts:329-357 | distinct ids and distinct nonempty names make every name lead back to its block |
| `FlowWire.NamedOrder` | web/lib/deploy-flow.ts:268-339 | order by block id is order by app name on the wire |
| `ScriptSplit.SplitInstallBuild` | agent/internal/deploy/script_split.go:9-59 | the loop with its running state computes the two halves AgentHalves describes |
| `ScriptSplit.EditorSplit` | web/lib/deploy-flow.ts:59-84 | the filters compute the two halves EditorHalves describes |
| `ScriptSplit.AgentShuffles` | agent/internal/deploy/script_split.go:9-38 | the agent's halves partition the commands, each keeping its order |
| `ScriptSplit.EditorShuffles` | web/lib/deploy-flow.ts:64-83 | the editor's halves partition the commands, each keeping its order |
| `ScriptSplit.HalvesAgree` | agent/internal/deploy/script_split.go:21-28 | both sides split alike exactly when no unclassified command comes before every install command |
| `ScriptSplit.CoverageExact` | agent/internal/deploy/flow.go:145-157 | under the phases the editor derives the agent runs every command exactly when some command is an install or none is unclassified |
| `ScriptSplit.SplittersDiffer` | agent/internal/deploy/script_split.go:21-28 | witness: make before npm ci installs on the agent and builds in the editor |
| `ScriptSplit.NothingCovered` | agent/internal/deploy/flow.go:145-157 | witness: of a script of one unclassified command the agent runs nothing |
| `Grouping.GroupByKey` | web/lib/deploy-order.ts:10-21 | buckets filled in one pass and read by sorted key are the waves, for any numbering of the items |
| `Grouping.WavesStable` | web/lib/deploy-order.ts:10-21 | flattened, the waves are a stable rearrangement: each group keeps its members and their order |
| `Grouping.WavesSorted` | web/lib/deploy-order.ts:10-21 | waves are nonempty, hold one group each, and groups strictly increase |
| `StartWaves.GroupAppsByStart` | agent/internal/deploy/runner.go:458-482 | the agent's start waves are the waves of its apps numbered by start group, negative groups as 0 |
| `StartWaves.StartOrder` | agent/internal/deploy/runner.go:458-482 | every app starts in exactly one wave, and in an earlier one than another exactly when its group is lower and the other's positive |
| `FlowRunner.Runner.RunDeployFlow` | agent/internal/deploy/flow.go:25-113 | the imperative wave loop leaves exactly the trace and error of the specification, for every host, command and world |
| `FlowRunner.Runner.RunAppScripts` | agent/internal/deploy/runner.go:622-668 | parallel scripts in any schedule: every job is begun and awaited, one failure does not stop the others |
| `FlowRunner.Runner.RunStages` | agent/internal/deploy/flow.go:200-243 | scripts, then runs, then starts of the apps not launched yet, then health checks, stopping at the first failing stage; what the runs launched is remembered |
| `FlowRunner.Runner.RunApps` | agent/internal/deploy/runapp.go:26-54 | every run task gets its turn and those that succeed are added to the launched apps |
| `FlowRunner.Runner.StartApps` | agent/internal/deploy/runner.go:716-749 | exactly the start tasks whose app is not launched get their turn, in order |
| `FlowRunner.Runner.RunFlowWave` | agent/internal/deploy/flow.go:118-243 | an unknown app or phase rejects the wave before anything runs |
| `FlowRunner.Runner.ActivateFor` | agent/internal/deploy/flow.go:61-76 | the swap comes before the first wave that needs it; a mixed wave is refused without one |
| `FlowRunReads.PolicyText` | agent/internal/deploy/flow.go:34 | a command continues after a failed wave exactly when its policy, trimmed, spells "continue" up to case |
| `FlowRunReads.PhaseOfText` | agent/internal/deploy/flow.go:142-145 | a phase is read exactly where the text, trimmed, spells its name up to case |
| `FlowRunReads.InstallScript` | agent/internal/deploy/flow.go:146-149 | the install script of the command stands in for an app without one, and never for one that has its own |
| `FlowRunReads.InstallAndBuildBodies` | agent/internal/deploy/flow.go:150-157 | install and build run the first and the second half of that script |
| `FlowRunReads.OtherBodies` | agent/internal/deploy/flow.go:166-190 | cleanup runs the app's own script, or the default for its language when that is blank; pre-start runs the app's own |
| `FlowRunReads.TaskTaken` | agent/internal/deploy/flow.go:144-196 | each task goes to its own stage, and a script with nothing to run to none |
| `FlowRunWave.AppFound` | agent/internal/deploy/flow.go:36-39 | of several apps with one name the last is the one a task means |
| `FlowRunWave.SortIs` | agent/internal/deploy/flow.go:137-200 | the work of a wave of known tasks is exactly what its tasks ask for, each stage in the order of the wave |
| `FlowRunWave.WaveRuns` | agent/internal/deploy/flow.go:200-243 | whatever fails, such a wave runs every task of a stage once and to its end, stage after stage up to the first with a failure, which is the one reported |
| `FlowRunWave.WaveRises` | agent/internal/deploy/flow.go:200-243 | in every schedule the scripts of a wave come before its runs, these before its starts, and health checks are last |
| `FlowRunWave.StartsLeft` | agent/internal/deploy/runner.go:716-749 | the starts left in a wave are those of apps that were not up and that no run task of the wave has launched |
| `FlowRunWave.WaveRefused` | agent/internal/deploy/flow.go:137-145 | a wave with a task the agent does not know runs nothing and reports the first such task |
| `FlowRunExact.RunExact` | agent/internal/deploy/flow.go:41-115 | for every command and every run the whole trace and the error: all waves under "continue", else those up to the first failing one, with the one place where the release goes live and the reason where it does not |
| `FlowRunExact.GetsSomewhere` | agent/internal/deploy/flow.go:91-98 | every run ends: a number of waves it gets to exists |
| `FlowRunExact.OneEnd` | agent/internal/deploy/flow.go:91-98 | and it is the only one |
| `FlowRunExact.SucceedsExact` | agent/internal/deploy/flow.go:41-115 | a run succeeds if and only if no wave fails, no mixed wave blocks the activation, the link moves and the process managers are kept |
| `FlowRunStages.SingleActivation` | agent/internal/deploy/flow.go:41-107 | for any flow and any run: at most one activation, exactly one on success, post-release work only after it, scripts in the right directory, and the "requires an activated release" errors never occur |
| `FlowRunStages.ActivationExact` | agent/internal/deploy/flow.go:61-107 | when exactly a run activates the release |
| `FlowRunStages.StopKeepsOldRelease` | agent/internal/deploy/flow.go:34-98 | unless the policy, trimmed, spells "continue" up to case, a failure before the first post-release wave leaves the old release live |
| `FlowRunStages.ContinueActivatesAnyway` | agent/internal/deploy/flow.go:34-107 | if it does, no failure keeps the release from going live |
| `FlowRunExamples.FailedInstallGoesLive` | agent/internal/deploy/flow.go:91-107 | witness: a command whose only task, an install, fails, written out with its trace, activation included |
| `FlowRunExamples.FailedInstallStops` | agent/internal/deploy/flow.go:34-98 | the same failing install under the stored default "stop": its trace, without an activation |
| `FlowRunOrder.SidesExact` | agent/internal/deploy/flow.go:50-60 | a wave needs the release exactly when some task of it has a phase after the release, and is refused as mixed, before the release is live, exactly when another has one before it |
| `FlowRunOrder.RunsInOrder` | agent/internal/deploy/flow.go:45-243 | an ordered flow without two script phases of one app in a wave never takes an app's phases out of order, under every schedule, failure and policy, and is never refused as mixed |
| `FlowRunReads.PhaseOfName` | agent/internal/deploy/flow.go:143-145 | the agent reads back every phase name the editor writes |
| `FlowRunOrder.EditorToAgent` | web/lib/deploy-flow.ts:262-339 | what the editor's check passes, saved and sent, the agent executes in order on every host |
| `FlowRunRace.RunsInOrderExact` | agent/internal/deploy/flow.go:200-221 | for checked flows with known names: all runs keep order if and only if no wave starts two different script phases of one app |
| `FlowRunRace.RaceBreaksOrder` | agent/internal/deploy/flow.go:200-221 | every such wave has a schedule that runs the later phase first |
| `FlowRunExamples.CleanupBeforeInstall` | agent/internal/deploy/flow.go:200-221 | witness: a command the editor's check passes, install and cleanup of one app in one wave, with a run out of order |
| `FlowRunWork.SuccessDidEverything` | agent/internal/deploy/flow.go:45-113 | a successful run did every wave's work exactly once, in the right place, starts of apps already launched left out, activated once and did nothing else |
| `FlowRunOnce.LaunchedOnce` | agent/internal/deploy/runner.go:87-89 | in every run of every flow, whatever fails and however the waves are cut, no start task launches an app that a run task has launched before |
| `ConfigApply.Box.WriteFileAtomic` | agent/internal/connectors/safety.go:133-188 | all or nothing at every failure point, every intermediate disk state showing the old or the new bytes at the path, the temporary gone afterwards |
| `ConfigApply.Box.RemoveFile` | agent/internal/connectors/safety.go:192-204 | removes a file the apply created, directly or through the root helper, which may leave it beside its path; nothing else changes and no other content is ever seen at the path |
| `ConfigApply.Box.RollbackTo` | agent/internal/connectors/safety.go:102-125 | puts the earlier bytes back, or the file away, and activates again, or reports a failing rollback; no other file changes and only the old or the rejected bytes are ever seen |
| `ConfigApply.Box.ApplyConfig` | agent/internal/connectors/safety.go:28-97 | any number of times on one disk: the step-by-step pipeline ends in the file, result and further activations of the specification, changes no other file but the moved-aside one, and at every moment, rollback included, shows the old or the new bytes |
| `ConfigSafety.ApplyIsTransaction` | agent/internal/connectors/safety.go:28-125 | success: new bytes on disk and activated, healthy; failure: the earlier bytes unless the rollback itself is reported failed; a dry run touches nothing |
| `ConfigSafety.StepsFollowPipeline` | agent/internal/connectors/safety.go:28-125 | the step list follows the fixed pipeline, only rollback steps follow a failing step, and the last step tells the outcome |
| `ConfigSafety.ResultTells` | agent/internal/connectors/safety.go:28-125 | which status and reason an apply reports, stage by stage: refused before the write, failed in writing, or blamed on live check, activation or health, with that stage's status when the undo worked and as failed when it did not |
| `ConfigSafety.WriteTells` | agent/internal/connectors/safety.go:133-188 | a write goes through exactly when every step on its way works, and lacks privileges only where the helper does not run |
| `ConfigSafety.ServingFollowsDisk` | agent/internal/connectors/safety.go:28-125 | starting in agreement, disk and service disagree afterwards if and only if other bytes were written and then either the live check or the activation failed and so did the undo, or the health check failed, the undo worked and the second activation failed |
| `ConfigSafety.RejectedStays` | agent/internal/connectors/safety.go:21-23 | a rejected config is left on disk if and only if a stage past the write failed and so did the undo |
| `ConfigSafety.RejectedOutlives` | agent/internal/connectors/safety.go:70-119 | witness: an apply on a disk that fills up leaves the rejected bytes while the old ones are served |
| `ConfigSafety.DiskHoldsLastApplied` | agent/internal/connectors/safety.go:28-97 | over any history in which no rollback failed the disk holds the last config reported applied |
| `ConfigSafety.StaleEditRefused` | agent/internal/connectors/safety.go:41-49 | of two edits based on the same bytes the second is refused |
| `OutboxKeys.LessIsNumeric` | agent/internal/outbox/outbox.go:76-80 | keys of one length sort as the numbers they encode |
| `OutboxKeys.KeyOrder` | agent/internal/outbox/outbox.go:76-80 | below 2^64 eight-byte big-endian key order is counter order, and keys are distinct |
| `Outbox.Outbox.Open` | agent/internal/outbox/outbox.go:51-61 | the counter resumes past the highest key on disk and the store is what was there |
| `Outbox.Outbox.Enqueue` | agent/internal/outbox/outbox.go:68-82 | appends at the end; a failed commit only spends its count |
| `Outbox.Outbox.Drain` | agent/internal/outbox/outbox.go:87-114 | what went out is the front of the queue, what remains is the rest, with one message left behind only when its deletion failed |
| `OutboxProtocol.SameStore` | agent/internal/outbox/outbox.go:77-81 | one put or delete by encoded key is the put or delete by count |
| `OutboxProtocol.NothingLost` | agent/internal/outbox/outbox.go:68-114 | over every interleaving of enqueuers, overlapping drainers, failures and crashes: the store is exactly the tail of commit order, everything before it was sent, and first sends follow commit order |
| `OutboxDrainers.SentInOrder` | agent/internal/runtime/runtime.go:165-187 | in every run in which no other drainer reads between a drainer's read and its accepted send, as when one stream is closed before the next opens, sends follow commit order with only adjacent repeats, however many drainers still have entries to send in vain or to delete |
| `OutboxDrainers.OverlapReorders` | agent/internal/outbox/outbox.go:87-114 | witness: otherwise any two drainers can send the first message again after the second |
| `OutboxDrainers.OneDrainerExact` | agent/internal/outbox/outbox.go:87-114 | a set of drainers sends in commit order with only adjacent repeats in all its runs if and only if it has at most one member |
| `OutboxDisk.RunRefines` | agent/internal/outbox/outbox.go:51-114 | over every run the byte-keyed store, its counter (reopening included), what each drainer holds and the messages sent are those of the counted protocol |
| `OutboxDisk.NothingLostOnDisk` | agent/internal/outbox/outbox.go:68-114 | so over every run the byte-keyed store holds exactly the last commits in order and every earlier one has been sent |
| `ReleaseNames.CandidatesDiffer` | agent/internal/deploy/release.go:131-141 | no two names Promote tries are equal, whatever the clock does |
| `ReleaseNames.CandidateCount` | agent/internal/deploy/release.go:131-141 | n tries are n different names, so the search ends |
| `ReleaseNames.SafeSegment` | agent/internal/deploy/release.go:256-269 | a run id as part of a path is never empty and has only letters, digits, - and _, those it came with in their place |
| `ReleaseNames.ShortIs` | agent/internal/deploy/release.go:51-62 | a release is named after the first seven characters of its commit, or "unknown" |
| `ReleaseNames.NamesSortByStamp` | agent/internal/deploy/release.go:51-62 | names of different seconds sort by time |
| `ReleaseNames.SameSecondOrder` | agent/internal/deploy/release.go:133-141 | of two tries for one commit in one second the earlier number i sorts before the later j if and only if i is 0 or at most j cut to as many digits as i |
| `ReleaseNames.GreaterName` | agent/internal/deploy/release.go:51-62 | of any two names the greater is the one of the later second, in one second the one whose short commit is greater as text, for one commit the one whose number is (as above): an if and only if over all names with commits of letters and digits |
| `ReleaseNames.LaterCommitFirst` | agent/internal/deploy/release.go:51-62 | witness: in one second commit bbbbbbb sorts after aaaaaaa whichever was deployed later |
| `ReleaseNames.TenBeforeTwo` | agent/internal/deploy/release.go:140-199 | witness: the suffix .10 sorts before .2, so the greatest name is not always the newest |
| `ReleaseNames.NewerIsIndex` | agent/internal/deploy/release.go:199-225 | in the sorted list a name's index is the number of newer names |
| `Release.Layout.Prepare` | agent/internal/deploy/release.go:115-127 | an empty incoming directory, cleared first, in place of what a run of that id left; nothing else is touched |
| `Release.Layout.FirstFree` | agent/internal/deploy/release.go:132-141 | ends at the first candidate nothing has yet |
| `Release.Layout.Promote` | agent/internal/deploy/release.go:131-148 | renames to that name and records the commit; every other directory stays, none is overwritten |
| `Release.Layout.Swap` | agent/internal/deploy/release.go:152-165 | moves the link or leaves it; it always names an existing release |
| `Release.Layout.FindRelease` | agent/internal/deploy/release.go:185-207 | the greatest release name recorded with the commit, nothing exactly when there is none |
| `Release.Layout.Prune` | agent/internal/deploy/release.go:211-238 | deletes exactly the releases that are neither live nor among the five greatest names and that it manages to delete; at most six stay when it manages all |
| `Release.Layout.Materialize` | agent/internal/deploy/runner.go:517-557 | a staged checkout becomes a new release under the first free name exactly when every step works, and otherwise leaves the releases as they were and, where it can be removed, nothing behind |
| `Release.Layout.Deploy` | agent/internal/deploy/runner.go:302-395 | exactly when a deploy succeeds and what it then serves; a failed one loses no release and serves what was served unless the release was activated; a rollback changes no directory; a finished one prunes: what stays is live, among the five newest or could not be removed, six at most when all removals work |
| `DotEnv.ParseDotEnv` | agent/internal/deploy/dotenv.go:61-84 | the line loop computes the fold of parsed lines, later lines winning |
| `DotEnvWrite.WriteDotEnvFile` | agent/internal/deploy/dotenv.go:130-158 | writes the trimmed nonempty keys in sorted order, or nothing |
| `DotEnvTrip.UnescapeInverts` | agent/internal/deploy/dotenv.go:90-92 | the two sequential replacements invert the escaping on every string |
| `DotEnvTrip.UnquoteOfQuoted` | agent/internal/deploy/dotenv.go:86-170 | a value reads back exactly when it was quoted and trimmed when it was not |
| `DotEnvTrip.SingleQuoted` | agent/internal/deploy/dotenv.go:86-103 | between single quotes a value is taken as it stands |
| `DotEnvTrip.DoubleQuoted` | agent/internal/deploy/dotenv.go:86-103 | between double quotes the escapes are undone |
| `DotEnvTrip.BareValue` | agent/internal/deploy/dotenv.go:86-103 | any other value ends before its first blank followed by # |
| `DotEnvTrip.QuotedIf` | agent/internal/deploy/dotenv.go:160-170 | a value is written between quotes exactly when it holds a blank, tab, line break, quote, # or = |
| `DotEnvTrip.ParseLineShape` | agent/internal/deploy/dotenv.go:61-84 | whatever a line holds, a key it sets is nonempty, trimmed and free of = and newline |
| `DotEnvTrip.ExportSetsShorter` | agent/internal/deploy/dotenv.go:69-72 | a key starting with export sets a shorter key |
| `DotEnvExact.BadKeyLost` | agent/internal/deploy/dotenv.go:66-82 | a map with a key that reads as comment or export never comes back |
| `DotEnvExact.RoundTrip` | agent/internal/deploy/dotenv.go:61-170 | for every map and key order the file reads back as the map if and only if every key and value meets the stated condition |
| `DotEnvExact.LineBreakLost` | agent/internal/deploy/dotenv.go:61-170 | witness: a value with a line break does not come back |
| `DotEnvExact.CommentKeyLost` | agent/internal/deploy/dotenv.go:61-170 | witness: a key starting with # does not come back |
| `RunKeys.RunWithRetries` | agent/internal/runtime/runs.go:101-140 | the retry loop sends exactly the numbered items of its attempts and returns the last status |
| `RunKeys.Execute` | agent/internal/executor/executor.go:45-113 | notes first, numbered from 0, then both pumps, stderr going on after the notes |
| `RunKeys.PumpLines` | agent/internal/executor/executor.go:139-151 | each pipe numbers its own lines in sequence |
| `RunKeysKept.AttemptsBounded` | agent/internal/runtime/runs.go:120-140 | at most one attempt more than the retries, and only plain failures are retried |
| `RunKeysKept.AttemptsExact` | agent/internal/runtime/runs.go:101-140 | there are n attempts exactly when each of the first n - 1 was refused, could not be started or failed, with retries left and its wait not cut short, and the n-th was not so |
| `RunKeysKept.KeysInRange` | agent/internal/runtime/runs.go:105-118 | up to 2146 retries and a block of items a stream, numbers stay below MaxInt32 and tell items apart |
| `RunKeysKept.LostExactly` | control-plane/internal/agentgw/stream.go:253-284 | what is stored is everything except the first stderr item of each retried attempt, whose number the retry notice took; nothing is lost exactly when no retried attempt wrote to stderr |
| `RunKeysKept.LineLost` | control-plane/internal/agentgw/stream.go:253-284 | witness: the only stderr line of a second attempt is not stored |
| `Admission.Runs.TryGate` | agent/internal/runtime/runs.go:166-172 | takes the slot or reports it taken |
| `Admission.Runs.ReturnSlot` | agent/internal/runtime/runs.go:156-168 | what an admitted run calls when it is over: the job's slot is free again, every other as it was |
| `Admission.Runs.TrackRun` | agent/internal/runtime/runs.go:188-193 | indexes the run and counts it |
| `Admission.Runs.ReleaseRun` | agent/internal/runtime/runs.go:195-202 | undoes both, never below zero |
| `Admission.AtMostOneGated` | agent/internal/runtime/runs.go:37-56 | over every interleaving at most one gated run of a job is between admission and return, the slot is taken only while there is one, and the busy count is the number of tracked runs |
| `Admission.RefusedOnlyWhenHeld` | agent/internal/runtime/runs.go:150-175 | a run is refused or kept waiting only while another holds the slot, never under allow |
| `Admission.BusyAtMostOne` | agent/internal/runtime/runs.go:150-175 | a job never run under allow has at most one tracked run |
| `Admission.AllowOverlaps` | agent/internal/runtime/runs.go:151-153 | witness: allow and skip runs of one job overlap |
| `Admission.IndexReachesTracked` | agent/internal/runtime/runs.go:188-212 | with distinct run ids the index, which cancelling goes through, holds exactly the tracked runs |
| `Scheduler.Scheduler.Apply` | agent/internal/scheduler/scheduler.go:47-85 | succeeds exactly when every enabled schedule parses; then entries are exactly the enabled jobs with matching timezone and schedule; after an early stop each entry is as wanted or as it was; entries and callbacks always correspond one to one |
| `Scheduler.Scheduler.PlaceAll` | agent/internal/scheduler/scheduler.go:64-84 | the same for the second loop, in any order of the jobs |
| `Scheduler.Scheduler.RemoveAbsent` | agent/internal/scheduler/scheduler.go:56-62 | removes exactly the entries no longer wanted |
| `Scheduler.Scheduler.Add` | agent/internal/scheduler/scheduler.go:72-82 | registers one job, making its cron on first use |
| `Scheduler.Scheduler.Start` | agent/internal/scheduler/scheduler.go:88-94 | starts every cron there is |
| `Scheduler.Scheduler.StartThenApply` | agent/internal/scheduler/scheduler.go:105-113 | after a start, jobs are applied as by Apply and a cron runs exactly when its timezone was known at the start |
| `Scheduler.FirstJobNeverRuns` | agent/internal/scheduler/scheduler.go:88-113 | witness: a job applied to a freshly started scheduler is registered in a cron that does not run |
| `Scheduler.RemoveKeeps` | agent/internal/scheduler/scheduler.go:57-62 | unregistering a job keeps every other job's callback and the correspondence |
| `Scheduler.AddKeeps` | agent/internal/scheduler/scheduler.go:76-82 | registering a job keeps every other job's callback and the correspondence |
| `Chunks.PiecesInParts` | web/lib/tools-stream.ts:37-55 | cutting a text at a separator, then what is left with more text, is cutting the whole |
| `SseCli.ParseSse` | cli/internal/client/client.go:119-165 | calls and outcome depend only on the whole input, not on how reads cut it, callbacks that stop or fail included |
| `SseWeb.ConsumeSse` | web/lib/tools-stream.ts:28-45 | events depend only on the whole body, not on its chunks |
| `SseWeb.StreamedIsBuffered` | web/lib/tools-stream.ts:28-60 | the streamed reader and the buffered fallback give the same events when blank blocks give none |
| `SseWire.ReadersAgree` | web/lib/tools-stream.ts:28-84 | and they give none, so both agree on every text |
| `SseWire.CliDelivers` | control-plane/internal/runs/handler.go:121-124 | a callback that never stops is handed exactly the events the server wrote, the end of the stream included, if and only if no field holds a newline or ends in a carriage return and no event is empty |
| `SseWire.CliFollows` | cli/internal/client/client.go:119-165 | with a callback that ends on an event it gets the events up to that one |
| `SseWire.WebDelivers` | control-plane/internal/hosttools/handler.go:155-158 | when no name holds a newline or can be trimmed and no data holds a newline or starts with white space, the web console is handed exactly the accepted events the server wrote, streamed or buffered |
| `SseExact.WebExact` | web/lib/tools-stream.ts:62-84 | and only then: whichever events the console accepts it is handed what the server wrote if and only if that holds of every event |
| `PumpOutput.Pump` | agent/internal/deploy/runner.go:1045-1095 | tagged events depend only on the whole output; untagged reads go out as they come |
| `PumpOutput.PrefixIs` | agent/internal/deploy/runner.go:1047-1050 | lines are tagged with their directory exactly when asked to and there is one |
| `PumpOutput.TaggedConserves` | agent/internal/deploy/runner.go:1045-1095 | one event a line, and without the prefixes the events are the output, up to a final newline |
| `PumpOutput.UntaggedConserves` | agent/internal/deploy/runner.go:1061-1063 | untagged events add up to the output and none is empty |
| `LogTail.StreamWriter.Write` | agent/internal/hosttools/tools.go:167-193 | one write appends, cutting the buffer back to the cap only when it would pass twice the cap |
| `LogTail.TailRefines` | agent/internal/hosttools/tools.go:465-470 | for any sequence of writes the trimmed buffer is the last 256 KiB of all output |
| `LogTail.BufferBounded` | agent/internal/hosttools/tools.go:167-193 | the buffer stays within twice the cap, or the cap and one write |
| `DeployOrder.WriteWaves` | web/lib/deploy-order.ts:24-41 | the loops over waves and leftovers compute the stamped blocks |
| `DeployOrder.WritingKeepsBlocks` | web/lib/deploy-order.ts:24-41 | writing any board keeps every block once |
| `DeployOrder.BoardIsPartition` | web/lib/deploy-order.ts:10-21 | the board read from blocks has every block once and no empty wave |
| `DeployOrder.BoardRoundTrip` | web/lib/deploy-order.ts:10-41 | a board comes back from the blocks it was written to if and only if it has every block once and no empty wave |
| `Grouping.WavesOfWaves` | web/lib/deploy-order.ts:10-21 | blocks numbered by nonempty waves are grouped back into those waves |
| `BoardMove.MoveBlockToWave` | web/lib/deploy-order.ts:43-65 | the padding, inserting and dropping steps compute MoveBlock |
| `BoardMove.MoveIs` | web/lib/deploy-order.ts:43-65 | the whole board after a move: the block is out of its old wave and at the place asked for in its new one, the waves around that keep their order, and empty ones are gone |
| `BoardMove.MoveKeepsPartition` | web/lib/deploy-order.ts:43-65 | a move keeps every block once and no wave empty |
| `BoardMove.MoveFrame` | web/lib/deploy-order.ts:43-65 | every other block keeps its wave-mates and order, and the moved one lands in the wave asked for |
| `Progress.BuildDeployLive` | web/lib/deploy-progress.ts:254-725 | walking the log line by line and adding the status gives the specified rail and percentage |
| `ProgressLines.SharedLines` | web/lib/deploy-progress.ts:517-529 | a preflight or clone line turns to that step: what it was on within the shared steps is done |
| `ProgressLines.CloneReady` | web/lib/deploy-progress.ts:521-529 | a clone line that says it is ready turns to the clone and ends it |
| `ProgressLines.QuietLines` | web/lib/deploy-progress.ts:480-652 | blank lines, a removed clone, pruned releases, unknown phases and pm2 save change no step |
| `ProgressLines.ScriptLines` | web/lib/deploy-progress.ts:395-415 | what an install script line does to the commands listed: turns to the one it names, leaves them, or lists its own anew; then the first begins unless one is running |
| `ProgressLines.InstallDoneLine` | web/lib/deploy-progress.ts:338-350 | "done" after an install ends just the running commands of that process |
| `ProgressLines.CleanupLine` | web/lib/deploy-progress.ts:537-543 | a cleanup line ends all commands of its process, pending ones too, and turns to its cleanup |
| `ProgressLines.SlotThere` | web/lib/deploy-progress.ts:539-542 | a step that was not listed is added to its process, and nothing else changes |
| `ProgressLines.ReleaseLines` | web/lib/deploy-progress.ts:566-570 | a release line ends the commands of all processes and turns to the release, unless that is done |
| `ProgressLines.ReleaseIsCurrent` | web/lib/deploy-progress.ts:559-565 | once the link points at it the release is done as well |
| `ProgressLines.SlotLines` | web/lib/deploy-progress.ts:615-642 | a run or start line turns to that step of its process, and "done" ends it |
| `ProgressLines.PreStartLines` | web/lib/deploy-progress.ts:571-592 | a pre-start line ends a release that is active and turns to the pre-start of its process, and "done" ends that |
| `ProgressLines.HealthTurns` | web/lib/deploy-progress.ts:607-611 | a health line turns to the first health step that is open |
| `ProgressLines.HealthEnds` | web/lib/deploy-progress.ts:598-603 | and ends it when it says healthy |
| `ProgressLines.HealthSkips` | web/lib/deploy-progress.ts:604-606 | or skips it when it says skipped |
| `ProgressLines.NoHealthOpen` | web/lib/deploy-progress.ts:595-614 | with no open health step a health line changes none |
| `ProgressLines.StartLines` | web/lib/deploy-progress.ts:654-672 | a start command ends an active release and an open pre-start of the process it is for, and turns to its start or skips that; it is for the process it names, else for the first whose start is pending |
| `ProgressLines.NoStart` | web/lib/deploy-progress.ts:468-469 | a start command for no process changes no step |
| `ProgressLines.OutputStarts` | web/lib/deploy-progress.ts:417-425 | output that starts the command after the running one of the process shown turns to that |
| `ProgressLines.OtherOutput` | web/lib/deploy-progress.ts:417-437 | other output changes no step |
| `ProgressLines.NewProcess` | web/lib/deploy-progress.ts:385-393 | a line for a directory not seen before adds a process without steps |
| `ProgressLines.TaggedLine` | web/lib/deploy-progress.ts:487-498 | a tag chooses the process shown and changes nothing else about a line |
| `ProgressLines.StatusEnds` | web/lib/deploy-progress.ts:680-693 | a success leaves every step done that was open and no other touched, a terminal failure is pinned as a failing line would, and a deploy still going on changes nothing |
| `ProgressRules.DoForward` | web/lib/deploy-progress.ts:321-437 | every other line keeps the rail well-formed, moves each step only forward (pending, active, over), lets only pending steps go, and activates nothing after a failure |
| `ProgressRules.DoneStaysDone` | web/lib/deploy-progress.ts:480-677 | a done step stays done under a line if and only if the line is not a process_manager=none naming a process whose start is done |
| `ProgressRules.StartTakenBack` | web/lib/deploy-progress.ts:480-677 | witness: on a rail where nothing has started, a done start line and a process_manager=none line for it leave the start skipped |
| `ProgressRules.FailSettles` | web/lib/deploy-progress.ts:352-374 | after a failure no step is pending or active, and what was done still is |
| `ProgressOrder.OrderedSorted` | web/lib/deploy-progress.ts:267-277 | the rail lists every step once: by stage, within a stage by process, and commands by number |
| `ProgressOrder.FailsExact` | web/lib/deploy-progress.ts:352-362 | which step a failure is pinned on: the current one, else the first active one, else the one after the last done, else the first open one |
| `ProgressOrder.FailMarks` | web/lib/deploy-progress.ts:363-374 | after a failure the steps shown before that one are done unless they had failed, it has failed unless it was done, and of those after it the open ones are skipped and no other changes |
| `ProgressOrder.FailsNowhere` | web/lib/deploy-progress.ts:352-374 | where there is no such step a failure changes no step |
| `ProgressRules.NothingLeftActive` | web/lib/deploy-progress.ts:686-692 | the extra pass over active steps after a terminal failure finds none |
| `ProgressRules.RailSettles` | web/lib/deploy-progress.ts:680-693 | whatever the log, once a run is over every step is done, failed or skipped, and what the log left done still is |
| `ProgressRules.PercentRange` | web/lib/deploy-progress.ts:218-232 | the percentage is within 0 and 100, is 100 after success and below 100 while running |
| `ProgressPercent.PercentIs` | web/lib/deploy-progress.ts:224-232 | the percentage is 100 for a success and otherwise the mean of the steps' shares to the nearest whole number, halves up, but 99 at most while the deploy goes on |
| `ProgressPercent.ShareOf` | web/lib/deploy-progress.ts:218-222 | a done step has the full share, a pending or skipped one none, an active or failed one 18 and 2 a line, up to 92 |
| `ProgressPercent.SumOne` | web/lib/deploy-progress.ts:224-232 | one step adds its share |
| `ProgressPercent.SumSplits` | web/lib/deploy-progress.ts:224-232 | the shares of two lists of steps add up |
| `ProgressPercent.SharedCounts` | web/lib/deploy-progress.ts:517-529 | a preflight or clone line counts once for its step and for no other |
| `ProgressPercent.ReleaseCounts` | web/lib/deploy-progress.ts:566-570 | so does a release line, unless the release is done |
| `ProgressPercent.StepCounts` | web/lib/deploy-progress.ts:635-638 | so does a run or start line that does not end its step |
| `ProgressPercent.PreStartCounts` | web/lib/deploy-progress.ts:587-590 | so does a pre-start line |
| `ProgressPercent.HealthCounts` | web/lib/deploy-progress.ts:607-611 | so does a health line |
| `ProgressPercent.StartCounts` | web/lib/deploy-progress.ts:664-667 | so does a start command |
| `ProgressPercent.OutputCounts` | web/lib/deploy-progress.ts:417-428 | output counts for the running command of the process shown unless it starts the next one |
| `ProgressPercent.SlotOutputCounts` | web/lib/deploy-progress.ts:429-436 | with no command running, output counts for the first running one of cleanup, pre-start, run, start and health |
| `ProgressPercent.SharedOutputCounts` | web/lib/deploy-progress.ts:674-677 | with no process shown it counts for the current step, and after a failure for none |

## Left out

- User interface, REST and gRPC plumbing, enrollment, databases, git, pm2, systemd, health probes and process spawning: each call is a parameter that succeeds or fails.
- When schedules fire, time zones and daylight saving: a cron is a map of callbacks, and nothing is said about jobs firing.
- The install-command classification lists and framework presets: one classification function is a parameter, shared by both splitters, whose real lists differ slightly.
- White space, case and bytes: texts are sequences of characters with Go's Unicode white space throughout; JavaScript's differs in two characters, and the editor's `&&` pattern with its surrounding white space is modelled as cutting and trimming.
- SseWeb.ConsumeSse: chunks are taken as already decoded text, so an incomplete UTF-8 sequence at the very end, which the streamed reader drops, is not modelled.
- The event stream readers implement a part of section 9.2.6 of the WHATWG HTML Living Standard; conformance is not claimed.
- FlowRepair.InsertMissingTask: insertion and the drag are functions that build new lists, as in the source; only the loops around them are methods.
- FlowWire.WireRoundTrip: where a name does not lead back to its block, says only that the loaded flow is complete, not which wave the entry ends up in.
- Fresh ids (`newId`) are a counter that has not been used yet in the flow.
- FlowRun: the wait between start and health, cancellation and the time budget are not modelled; which scripts run in parallel is. An app listed without a name, which the agent tracks under its directory's, counts as named "".
- ConfigApply.Box.ApplyConfig: a crash or another writer in the middle of an apply is not modelled; the states the disk goes through during one apply are.
- Outbox.Outbox.Enqueue: requires a counter below 2^64, and OutboxProtocol speaks of fewer than 2^64 actions; the wrap-around after that is not followed further.
- OutboxDrainers.SentInOrder: that a stream accepts nothing once the next one is open is its hypothesis; streams themselves are not modelled.
- OutboxProtocol: message encoding is total, and Drain's decoding error is not modelled.
- ReleaseNames.GreaterName: compares names with stamps of one length and commits made of letters and digits, as clock and git give them.
- Release.Layout.Promote: an error from looking a name up that is not "does not exist" is read as taken, and a partly deleted directory counts as kept; deploys of one project are sequential; migrating an old in-place checkout is left out.
- RunKeysKept.LostExactly: says which items the control plane's table keeps, not the size cap on stored logs.
- RunKeys.PumpLines: a line longer than the scanner's one-megabyte buffer, which ends the reading of its pipe, is not modelled.
- Admission: a queued run is admitted by a step of its own whenever the slot is free; no fairness among waiting runs is claimed.
- Scheduler.Scheduler.Apply: the source iterates over maps in any order, and so does the model; the mutex makes calls sequential.
- PumpOutput.Pump: the per-run cap on streamed log bytes is left out.
- Progress: modelled on values, the step records by their place; recognising a line (patterns, directories, which command a script is) is left to the caller, so labels, headline, log panes and path matching are not modelled; percentages use exact rationals where the source uses floating point.
- LogTail.StreamWriter.Write: the live sink and its climbing percentage are left out.
- mergeDotEnvAround, applyListenPort, addEmptyWave, removeWave and the presets of the order board: one-step functions that would only add easy members.
