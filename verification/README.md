# Nova Agent: verified model

A Dafny model of the parts of the Nova Agent whose guarantees must hold over
whole runs, with proofs of those guarantees.

| module | models |
|---|---|
| `CycleDetection` | the guard that finds navigation loops in a session's transitions |
| `ExplorationTypes`, `ExplorationModel`, `ExplorationManager` | the exploration engine: settling a page, choosing an action, executing it, special scenes, session actions, off-target recovery |
| `ExplorationSettling`, `ExplorationChoices`, `ExplorationExecution`, `ExplorationDetours` | what exactly each of its steps does, told from its inputs |
| `ExplorationProofs`, `ExplorationTheorems` | its invariants and the session-wide claims |
| `DeviceOwnership` | the coordinator that decides who may drive the device |
| `SessionLifecycle` | starting, stopping and finishing exploration sessions |
| `RecordingProtocol`, `RecordingManager` | starting, stopping, saving and recovering recordings, and replays beside them |
| `TouchTimeline`, `TouchRecording`, `TouchGrouping` | from touch events to a recording the validator accepts |
| `ActionReceipts`, `ReplayVerdict` | replaying a case and what its verdict is worth |
| `CanonicalHierarchy` | the canonical form of UI trees and node identities |
| `LineChunks`, `BoundedLog`, `LogOrder`, `LogScope` | the bounded diagnostic log and the writer in front of it |
| `LogRotation` | size-triggered rotation of log files |
| `IncidentAggregation`, `IncidentMerging` | grouping log observations and process exits |
| `ActivityMemory` | the persisted table of destinations per action |

Objects that the agent updates under a lock are classes here, one method per
critical section, each proved equal to a function on the object's abstract
value. The properties are lemmas about those functions, over every sequence of
steps, so a sequence of critical sections is one interleaving of goroutines.
History that the agent does not keep (a full trace, the choices made, what was
written to disk) is part of the abstract value or a ghost field.

`dafny verify dfyconfig.toml` checks the whole project.

## Where the code differs from its promises

The model follows the code. These promises hold only under a condition:

- A repeated start with the same request id is recognised only if no other
  request came in between (`SessionLifecycle.ForgottenRequestRunsAgain`).
- A stop of a recording that is overtaken by the next recording can leave the
  manager finalizing for ever (`RecordingProtocol.OvertakenStopSticks`); it
  cannot when stops decide after the current capture has ended
  (`RecordingProtocol.OrderlyRunsNeverStick`).
- A replay with several loops is not reported as passed, except two loops
  resumed at the very end, because the receipts are compared with the length
  of one cycle (`ReplayVerdict.PassesExactlyWhen`).
- The lines handed on to the bounded log are independent of chunking exactly
  for streams whose lines exceed 64 KiB by at most one byte
  (`LineChunks.BoundedStreamsIgnoreChunks`, `LineChunks.LongLinesDependOnChunks`).
- The bounded log keeps lines in the order they came only as long as no line
  fits into its head after one that did not
  (`LogOrder.LogKeepsOrderExactlyWhen`, `LogOrder.ShortLineOvertakes`).
- Following parents from a page ends at the first page only if pages led to all
  pages on the way. It ends earlier at a page that was first recorded with no
  step, or a return, pending, and such a page may have an activity for a parent
  (`ExplorationTheorems.ChainEndsExactlyWhere`,
  `ExplorationTheorems.SecondPageMayBeARoot`,
  `ExplorationTheorems.FirstPageMayHaveAParent`).
- A recording validates exactly when its groups and entries are acceptable
  (`TouchRecording.RecordingValidatesExactlyWhen`).

In particular a slot pressed twice inside one contact group, and an entry that
is recorded at a later millisecond than the press of a finger still down, yield
recordings the validator rejects (`TouchRecording.RepressedSlotIsRejected`,
`TouchRecording.KeyDuringGestureBreaksOrder`).

## Model

| member | source | states |
|---|---|---|
| `CycleDetection.Verdict` | `agent/internal/exploration/cycle_guard.go:36-70` | an independent definition of the guard's answer on a whole trace: it satisfies `IsVerdict`, that is, the least period of at most 8 whose last three rounds coincide, else the sentinel exactly when the last pair has occurred at least four times, else 0 |
| `CycleDetection.VerdictIsUnique` | `agent/internal/exploration/cycle_guard.go:36-70` | those three clauses leave no choice: any number that meets them is the verdict |
| `CycleDetection.WindowSuffices` | `agent/internal/exploration/cycle_guard.go:41-62` | the three-round test on the last 64 samples gives the same answer as on the whole trace since the last reset, for every period up to 8 |
| `CycleDetection.CycleGuard.Repeated` | `agent/internal/exploration/cycle_guard.go:46-60` | the in-place comparison loop over the window decides the three-round test on the whole trace |
| `CycleDetection.CycleGuard.Record` | `agent/internal/exploration/cycle_guard.go:36-45` | appending, counting and trimming keep the window equal to the end of the trace and the counts equal to the occurrences in the whole trace |
| `CycleDetection.CycleGuard.Observe` | `agent/internal/exploration/cycle_guard.go:36-70` | the windowed, counting guard returns the verdict of the whole trace since the last reset |
| `CycleDetection.CycleGuard.ResetProgressWindow` | `agent/internal/exploration/cycle_guard.go:31-34` | after a reset the guard answers as a fresh one |
| `CycleDetection.FourthOccurrenceIsReported` | `agent/internal/exploration/cycle_guard.go:63-69` | a pair that occurs four times was reported by the fourth time at the latest |
| `CycleDetection.PigeonholeOnCounts` | `agent/internal/exploration/cycle_guard.go:63-69` | a trace over K pairs, each at most three times, has at most 3K samples |
| `CycleDetection.QuietRunIsShort` | `agent/internal/exploration/cycle_guard.go:31-70` | with K distinct pairs any 3K+1 observations without a reset contain a report |
| `DeviceOwnership.StepKeepsInv` | `agent/internal/execution/identity.go:61-112` | one coordinator call keeps: at most one top-level owner, a hosted child only under a live, older parent |
| `DeviceOwnership.HistoryKeepsInv` | `agent/internal/execution/identity.go:61-112` | the same over every history in which the 64-bit counter does not wrap |
| `DeviceOwnership.AnsweredExactlyWhen` | `agent/internal/execution/identity.go:61-112` | who gets what: the free device to anyone, one place under the owner to a caller that names it; exactly the holders are valid and can release; every other call changes nothing |
| `DeviceOwnership.ReleaseDrops` | `agent/internal/execution/identity.go:99-112` | a release of the registered owner or child drops it, and a parent takes its child with it |
| `DeviceOwnership.DroppedIsInertForever` | `agent/internal/execution/identity.go:90-120` | an identity that holds nothing stays inert through every history of fewer than 2^64 grants since its own, even if the counter wraps: Validate, Release and hosting with it fail and change nothing |
| `DeviceOwnership.OwnerKeepsDevice` | `agent/internal/execution/identity.go:61-112` | an owner that is not released keeps the device through every history of other calls |
| `DeviceOwnership.FullTurnCanRevive` | `agent/internal/execution/identity.go:61-88` | the bound is exact: from every state with a free device any identity can be registered with the 2^64th grant since its own |
| `DeviceOwnership.WrapCanReviveIdentity` | `agent/internal/execution/identity.go:65-72` | from the start: an identity is granted, released, and registered again after exactly 2^64 more grants, if the random token repeats |
| `DeviceOwnership.Coordinator.Acquire` | `agent/internal/execution/identity.go:61-73` | in place: grants exactly when nobody owns the device, and is the specification's step |
| `DeviceOwnership.Coordinator.AcquireHosted` | `agent/internal/execution/identity.go:75-88` | in place: grants exactly under the live parent and no other child |
| `DeviceOwnership.Coordinator.Validate` | `agent/internal/execution/identity.go:90-97` | accepts exactly the registered owner or child |
| `DeviceOwnership.Coordinator.Release` | `agent/internal/execution/identity.go:99-112` | in place: is the specification's release, parent and child together |
| `ActionReceipts.ReceiptStore.Accept` | `agent/internal/execution/receipt.go:44-67` | in place: refuses incomplete claims, reports a duplicate or a conflict without touching the stored receipt, otherwise stores the claim |
| `ActionReceipts.ReceiptStore.Finish` | `agent/internal/execution/receipt.go:69-81` | in place: changes the status of a known step only |
| `ActionReceipts.AnsweredExactlyWhen` | `agent/internal/execution/receipt.go:44-67` | incomplete, new, duplicate and conflicting claims are told apart exactly by completeness, the step and the three fingerprints of the attempt |
| `ActionReceipts.ReceiptsTellTheHistory` | `agent/internal/execution/receipt.go:44-81` | over any run from an empty store a receipt holds the first complete claim of its step and the status of the last finish after it; later claims never touch it |
| `ActionReceipts.ExecutedAtMostOnce` | `agent/internal/execution/receipt.go:44-81` | over any run of claims and finishes a step is told to execute exactly once if it is unknown and some complete claim for it arrives, and otherwise never |
| `ExplorationProofs.StepKeepsInv` | `agent/internal/exploration/manager.go:391-579` | every engine step (page record, choice and execution, special scene, session action, leaving the target, a surface handed over, restart) keeps counters, receipts, graph, taps and round accounts in order |
| `ExplorationProofs.RunKeepsInv` | `agent/internal/exploration/action_execution.go:13-106` | the same over every sequence of steps |
| `ExplorationProofs.TrySpends` | `agent/internal/exploration/action_execution.go:65-78` | trying an untried action of a page lowers the page's budget: one per tap or input, three minus the attempts per swipe |
| `ExplorationProofs.ExecutionSpends` | `agent/internal/exploration/action_choice.go:54-62` | every executed coverage action strictly spends from the round's budget, and no execution gives any back |
| `ExplorationProofs.SpentWithinAllowance` | `agent/internal/exploration/scheduler.go:330-336` | what a round can spend is at most taps plus inputs plus three times the swipes of the discovered pages |
| `ExplorationProofs.ChooseFits` | `agent/internal/exploration/action_choice.go:16-117` | every choice is justified: coverage picks are untried, unblocked and, if taps, unseen; returns are the page's own, within the backtrack limit; escapes are the back key or a visible back control |
| `ExplorationChoices.SelectionPicks` | `agent/internal/exploration/scheduler.go:330-370` | a pass takes a control exactly when one is free: untried, allowed and not excluded; it is a least ranked of those competing, that is, recovery controls if any are free and, after two other selections, swipes if any |
| `ExplorationChoices.LanguageIsSettledFirst` | `agent/internal/exploration/action_choice.go:16-31` | on a language surface the preferred language, or its confirmation once accepted, is taken exactly when it has not been taken in this activity |
| `ExplorationChoices.AvailableControlIsTaken` | `agent/internal/exploration/action_choice.go:54-62` | while a page has an available control (untried, not barred, not blocked, not seen) the engine takes one, one without an outside account if there is any, a least ranked of the competing ones; it does not return, escape, wait, restart or stop |
| `ExplorationChoices.ReturnIsTakenExactlyWhen` | `agent/internal/exploration/action_choice.go:63-77` | with nothing left to take, the return action is taken exactly when it is known and allowed and either not tried this round and not blocked, or forced by a stall armed here; the attempt is counted and the stall cooled |
| `ExplorationChoices.StuckPageIsLeft` | `agent/internal/exploration/action_choice.go:78-93` | otherwise a page the engine is stuck on: stop when the time is up, else one step back by its own first back control or the key, else wait, else one relaunch per thirty seconds |
| `ExplorationChoices.SpentPageIsLeft` | `agent/internal/exploration/action_choice.go:78-117` | and any other page: a second capture, stop when the time is up, wait for a relaunch to cool down, else a new round, which forgets exactly the tries, attempts, scroll turns, return attempts and inputs, and takes an available control, else once the page's own back control, else restarts |
| `ExplorationChoices.RestartMeansNothingAvailable` | `agent/internal/exploration/action_choice.go:103-116` | a page that is not stuck is given up only when not even a new round makes any control available |
| `ExplorationSettling.RecordPageSettles` | `agent/internal/exploration/transition.go:37-120` | the whole effect of a settled step: it is effective exactly when the semantic state changed; the edges blocked are exactly the tap before a back control that changed nothing, a swipe that changed nothing for the third time, a return that led elsewhere and what the guard names; counters, stalls, stuck marks, trace and escalation follow |
| `ExplorationSettling.RecordPageLinks` | `agent/internal/exploration/transition.go:20-47` | its place in the graph: the page, the edge, the destination, the receipt, and for a new page reached by a forward step its parent and a return action that undoes the step |
| `ExplorationSettling.RecordPageArrives` | `agent/internal/exploration/transition.go:11-36` | without a pending step a capture only adds the page and its semantic state |
| `ExplorationSettling.ReportedCycleIsBlocked` | `agent/internal/exploration/transition.go:96-113` | the guard's verdict on the whole trace decides: the detection counter moves exactly when it is not 0, and every edge of the reported round, or the repeated edge, is blocked |
| `ExplorationTheorems.CountersAddUp` | `agent/internal/exploration/transition.go:37-75` | in every session: edges = effective + ineffective <= steps, scroll progress + stalls <= scroll attempts, backtracks <= the limit, the blocked-edge counter = the number of blocked edges |
| `ExplorationTheorems.StepsAreAccountedFor` | `agent/internal/exploration/action_execution.go:63-85` | in every session: step ids are pairwise distinct and every step not of the session itself carries an executed receipt |
| `ExplorationTheorems.NoTapIsChosenTwice` | `agent/internal/exploration/action_choice.go:44-62` | in every session, across round resets: no tap is chosen twice in one activity, except a visible back control taken to escape |
| `ExplorationTheorems.RoundIsBounded` | `agent/internal/exploration/action_choice.go:159-167` | a round executes at most taps + inputs + 3 * swipes coverage actions over the discovered pages |
| `ExplorationTheorems.SessionGrows` | `agent/internal/exploration/state.go:185-191` | for the rest of a session blocked edges stay blocked, chosen taps stay marked and a page keeps the parent it was given |
| `ExplorationTheorems.BlockedEdgeIsNeverSelected` | `agent/internal/exploration/action_choice.go:32-62` | once blocked, an edge is never again taken by a selection pass, in any continuation of the session |
| `ExplorationTheorems.ReportedCycleStaysBlocked` | `agent/internal/exploration/transition.go:96-113` | in every session: each edge named by the guard's verdict is blocked from then on and never selected again |
| `ExplorationTheorems.EffectsAreCounted` | `agent/internal/exploration/transition.go:54-75` | in every session: effective and ineffective actions are the settled steps that did and did not change the semantic state, detected cycles the steps the guard reported |
| `ExplorationTheorems.ReturnActionsUndoSteps` | `agent/internal/exploration/transition.go:114-117` | in every session the return action of a page undoes a step that led to it from its parent: the back key, or the swipe with its ends exchanged |
| `ExplorationExecution.FailedAttemptLeaves` | `agent/internal/exploration/action_execution.go:13-62` | an attempt that does not reach the device leaves a receipt that says how it failed, unless the claim was refused, and nothing else but its number |
| `ExplorationExecution.ExecutionLeaves` | `agent/internal/exploration/action_execution.go:63-106` | an executed action is the new pending step under its own receipt; its page has one more try: a swipe is used up by the third, anything else by the first |
| `ExplorationExecution.ActionsAreCounted` | `agent/internal/exploration/action_execution.go:63-106` | in every session the steps are the actions that reached the device, and the counters of returns, swipes, inputs, stale and special actions count exactly those |
| `ExplorationDetours.AttemptsAreSharedExactlyWhen` | `agent/internal/exploration/special_step.go:53-67` | two scenes share their attempts exactly when they are of one kind and, for ads, load and purchase failures, in one activity, otherwise on one page |
| `ExplorationDetours.EnteringNotes` | `agent/internal/exploration/special_step.go:12-45` | what every capture notes: foreign visits forgiven, ad encounters opened and closed, scrolling allowed again |
| `ExplorationDetours.SceneIsActedOnExactlyWhen` | `agent/internal/exploration/special_step.go:49-164` | a scene is acted on exactly when it is not passed by or waited for, there is a remedy (its action, or its fallback after waiting or a first try) and attempts are left; one attempt is counted |
| `ExplorationDetours.SceneIsWaitedForExactlyWhen` | `agent/internal/exploration/special_step.go:74-92` | a scene is waited for exactly while it asks to and its limit has not passed since it was first seen waiting |
| `ExplorationDetours.SceneIsLeft` | `agent/internal/exploration/special_step.go:106-160` | every other scene: passed by, a stop, or a restart, by its outcome, kind and the clock |
| `ExplorationDetours.DecidingMarks` | `agent/internal/exploration/special_step.go:63-163` | what deciding marks: purchases barred, the tap that led to a failed one blocked, an onboarding page stuck, cold starts allowed, waits begun and ended |
| `ExplorationDetours.ActOnSceneLeaves` | `agent/internal/exploration/special_step.go:165-231` | an act on a scene leaves the pending step pending, takes its own receipt, and its attempt back when it never reached the device |
| `ExplorationDetours.HomeIsLeft` | `agent/internal/exploration/foreground_recovery.go:24-51` | the launcher is left at most every eight seconds, dropping the pending step |
| `ExplorationDetours.OvershotOrBarredIsRestarted` | `agent/internal/exploration/foreground_recovery.go:52-106` | an overshot return and a package visited three times restart the target and blame no edge |
| `ExplorationDetours.ForeignPackageIsBlamed` | `agent/internal/exploration/foreground_recovery.go:107-148` | any other foreign package is one more visit: exactly the edge that led there is blocked and its step ends outside |
| `ExplorationDetours.HandoffIsLeft` | `agent/internal/exploration/manager.go:443-449` | a surface handed over to another app is left, and exactly the edge of the tap that led there is blocked |
| `ExplorationDetours.StuckPageIsRelaunched` | `agent/internal/exploration/foreground_recovery.go:152-185` | a relaunch that was asked for is carried out once |
| `ExplorationDetours.ShellIsRelaunchedOnce` | `agent/internal/exploration/foreground_recovery.go:186-209` | without a cold start: one step back, one relaunch, then thirty seconds of nothing |
| `ExplorationDetours.LadderIsClimbed` | `agent/internal/exploration/foreground_recovery.go:210-236` | elsewhere: four gestures, then a relaunch |
| `ExplorationDetours.DetoursAreBounded` | `agent/internal/exploration/foreground_recovery.go:24-236` | in every session no package is visited more than three times before it is left for good and no activity escaped from more than four times before a relaunch |
| `ExplorationTheorems.ScenesAreActedOnWithinLimit` | `agent/internal/exploration/special_step.go:134-164` | in every session a special scene is acted on at most MaxAttempts times, refunds aside, from one start of the target to the next |
| `ExplorationTheorems.AttemptsCountActs` | `agent/internal/exploration/special_step.go:134-194` | the attempt counters are exactly the acts since the target was last started that were not refunded, and never exceed the limit |
| `ExplorationTheorems.ParentHasLowerRank` | `agent/internal/exploration/transition.go:114-117` | a parent page was discovered strictly before its child |
| `ExplorationTheorems.Ancestors` | `agent/internal/exploration/transition.go:114-117` | following parents visits strictly earlier pages and so ends |
| `ExplorationTheorems.EveryPageHasAWayBack` | `agent/internal/exploration/transition.go:114-117` | in every session: a return action exists for exactly the pages with a parent, and every page has a finite chain of ancestors |
| `ExplorationTheorems.FirstPageMayHaveAParent` | `agent/internal/exploration/session_compose.go:130-155` | a session action before the first capture becomes the first page's parent |
| `ExplorationTheorems.SecondPageMayBeARoot` | `agent/internal/exploration/transition.go:114-117` | two pages recorded in a row with no step between them leave the second one without a parent, so its chain ends there |
| `ExplorationTheorems.ParentIsPendingOrigin` | `agent/internal/exploration/transition.go:114-117` | recording a page gives it a parent exactly when it is new and a step is pending that does not go back; the parent is that step's origin and no other parent changes |
| `ExplorationTheorems.ParentsAreBirthOrigins` | `agent/internal/exploration/transition.go:114-117` | in every session a page has a parent exactly when such a step was pending as it was first recorded, and its parent is that step's origin |
| `ExplorationTheorems.ChainEndsExactlyWhere` | `agent/internal/exploration/transition.go:114-117` | a chain of parents ends exactly at the first page that no page led to: recorded with nothing or a return pending, or after a session action; in the last case only an activity is its parent |
| `ExplorationTheorems.ChainsEndAtFirstPageExactlyWhen` | `agent/internal/exploration/transition.go:114-117` | all chains end at the first page exactly when a page led to every other page |
| `ExplorationManager.Manager.BlockEdge` | `agent/internal/exploration/state.go:185-191` | in place: the counter moves exactly when the edge is new |
| `ExplorationManager.Manager.RecordPage` | `agent/internal/exploration/transition.go:11-128` | in place: settling a page is the specification's step, with the cycle guard's window standing for the whole trace |
| `ExplorationManager.Manager.ObserveCycle` | `agent/internal/exploration/transition.go:88-113` | in place: inputs and swipes that stay are not shown to the guard; the rest is reacted to as the verdict on the whole trace demands |
| `ExplorationManager.Manager.SettleStep` | `agent/internal/exploration/transition.go:37-120` | in place: edge, receipt, counters, progress, cycle reaction and parent of the pending step |
| `ExplorationManager.Manager.ResetSelectableRound` | `agent/internal/exploration/action_choice.go:159-167` | in place: the loop clears tries, attempts and scroll turns of every page, return attempts and tried inputs, and nothing else |
| `ExplorationManager.SelectAction` | `agent/internal/exploration/scheduler.go:330-370` | the filter loops and the ranked pick give the least ranked action among the candidates: untried, allowed, not excluded, then recovery controls, then swipes when due |
| `ExplorationManager.FindVisibleBack` | `agent/internal/exploration/foreground_recovery.go:420-427` | the first visible back control, if any |
| `ExplorationManager.Manager.ChooseAction` | `agent/internal/exploration/action_choice.go:16-117` | in place: language, coverage, return, escalation, stuck page, new round and restart, in this order, are the specification's choice |
| `ExplorationManager.Manager.ExecuteChosen` | `agent/internal/exploration/action_execution.go:13-106` | in place: refused, stale, failed and executed outcomes leave exactly the specified state |
| `ExplorationManager.Manager.HandleSpecialScene` | `agent/internal/exploration/special_step.go:11-235` | in place: entering, deciding and acting on a special scene, with its attempts, waits, purchase and stuck marks |
| `ExplorationManager.Manager.EnterScene` | `agent/internal/exploration/special_step.go:12-45` | in place: ad encounters, foreign visits and error scrolling on every capture |
| `ExplorationManager.Manager.DecideScene` | `agent/internal/exploration/special_step.go:49-163` | in place: pass by, wait, restart, stop or act, in this order of guards |
| `ExplorationManager.Manager.ActOnScene` | `agent/internal/exploration/special_step.go:165-231` | in place: the act adds its step and receipt but leaves the pending step pending; a stale one is refunded |
| `ExplorationManager.Manager.RestartExhaustedTarget` | `agent/internal/exploration/foreground_recovery.go:152-236` | in place: the relaunch of a stuck page, the shell's back and cooldown, and the ladder of four gestures |
| `ExplorationManager.Manager.LeaveHandoff` | `agent/internal/exploration/manager.go:443-449` | in place: a surface handed over to another app blocks the pending tap and is left |
| `ExplorationManager.Manager.RecordSessionAction` | `agent/internal/exploration/session_compose.go:130-155` | in place: a session action becomes a pending step without a receipt |
| `ExplorationManager.Manager.RecoverOffTarget` | `agent/internal/exploration/foreground_recovery.go:24-148` | in place: home, an overshot return, too many visits and a foreign package each drop the pending step; the last blocks its edge; recoveries and visits are counted |
| `ExplorationManager.Manager.BlockPendingTap` | `agent/internal/exploration/state.go:169-183` | in place: a failure dialog blocks the pending tap unless it is a visible back control |
| `ExplorationManager.Manager.LeaveStuck` | `agent/internal/exploration/stuck.go:42-57` | in place: one back, then one restart per cooldown |
| `ExplorationManager.Manager.VisitPage` | `agent/internal/exploration/manager.go:552-579` | in place: one turn of the loop, from the recorded page to the executed action |
| `SessionLifecycle.StepKeepsInv` | `agent/internal/exploration/manager.go:315-348` | every start, stop, return, release and leave keeps: the session owns the device until its release step, and the flags agree with the phases passed |
| `SessionLifecycle.RunKeepsInv` | `agent/internal/exploration/manager.go:239-348` | the same over every run, whatever other sessions do with the coordinator |
| `SessionLifecycle.EveryRun` | `agent/internal/exploration/manager.go:239-348` | in every run each session passes Running, Finalizing, idle in that order, ends Running once, owns the device from Start to its release, and reports "stopped" whenever a stop was accepted while it ran |
| `SessionLifecycle.StartIsAnsweredExactlyWhen` | `agent/internal/exploration/manager.go:239-290` | which of its five answers a start gets, told from the request, the configuration, the flags and the device |
| `SessionLifecycle.FlagsFollowSteps` | `agent/internal/exploration/manager.go:239-348` | each flag told from the steps: running from the start to the first finish or return, stopping once a stop has come, finalizing from then until the run leaves |
| `SessionLifecycle.SessionEndsAsTold` | `agent/internal/exploration/manager.go:594-657` | from any running state, over every run: the session runs on until its run finishes or returns, and then ends for good with the reason of the first of them, or "stopped" if any stop came before |
| `SessionLifecycle.StartCreatesExactlyWhen` | `agent/internal/exploration/manager.go:239-313` | a start creates a session exactly when nothing is active, the device is free and the last session had another request id; otherwise it changes nothing |
| `SessionLifecycle.WholeSession` | `agent/internal/exploration/manager.go:239-348` | an undisturbed start runs to idle with the device free again |
| `SessionLifecycle.AnotherRequest` | `agent/internal/exploration/manager.go:246-313` | each request that differs from the last one is one more session |
| `SessionLifecycle.ForgottenRequestRunsAgain` | `agent/internal/exploration/manager.go:259-266` | repeats are recognised in a row only: requests a, b, a make three sessions |
| `SessionLifecycle.Manager.Start` | `agent/internal/exploration/manager.go:239-313` | in place: the five outcomes of Start, each with the state it leaves |
| `SessionLifecycle.Manager.FinishLocked` | `agent/internal/exploration/manager.go:642-657` | in place: only the first finish ends Running, and "stopped" wins over any reason once a stop was accepted |
| `SessionLifecycle.Manager.StopLocked` | `agent/internal/exploration/manager.go:594-618` | in place: a stop is accepted exactly while running |
| `SessionLifecycle.Manager.RunReturns` | `agent/internal/exploration/manager.go:315-348` | in place: the run ends Running if nothing else has |
| `SessionLifecycle.Manager.RunReleases` | `agent/internal/exploration/manager.go:315-348` | in place: the release gives the device back |
| `SessionLifecycle.Manager.RunLeaves` | `agent/internal/exploration/manager.go:315-348` | in place: Finalizing ends last |
| `RecordingProtocol.StepKeepsInv` | `agent/internal/recordreplay/manager.go:213-369` | every critical section keeps the history, the single write in flight, the mutual exclusion of recording and replay, and that no stop waits for a capture nobody will end |
| `RecordingProtocol.RunKeepsInv` | `agent/internal/recordreplay/manager.go:213-369` | the same over every interleaving |
| `RecordingProtocol.EveryInterleaving` | `agent/internal/recordreplay/recording_store.go:30-82` | in every interleaving of stop callers, capture ends, finalizers, drafts and replays: at most one write in flight, each identity published at most once and with exactly the actions that arrived while it was running (the fold of its appends over what it opened with, told from the steps), and nothing new begins while a case is unsaved |
| `RecordingProtocol.PublishedIsWhatArrived` | `agent/internal/recordreplay/recording_capture.go:17-51` | every published case and the one in memory are the left fold, from nothing or the recovered draft, of exactly the appends taken while that session was running under its own generation |
| `RecordingProtocol.RecordingFlagsFollowSteps` | `agent/internal/recordreplay/manager.go:238-369` | each recording flag told from the steps: running, stopping, finalizing, persisting and saved |
| `RecordingProtocol.WaitsFollowSteps` | `agent/internal/recordreplay/manager.go:312-369` | which capture or finalizer every stop caller waits for |
| `RecordingProtocol.CapturesFollowSteps` | `agent/internal/recordreplay/manager.go:277-308` | which captures are still on, and which one a stop has to wait for |
| `RecordingProtocol.ReplayFlagsFollowSteps` | `agent/internal/recordreplay/manager.go:449-547` | each replay flag told from the steps |
| `RecordingProtocol.OnlyRunningSessionsAccumulate` | `agent/internal/recordreplay/recording_capture.go:17-51` | only the running session's own events change what is recorded |
| `RecordingProtocol.UnsavedCaseCanBeRetried` | `agent/internal/recordreplay/recording_store.go:38-53` | after a failed write the next stop starts another one, for the same case |
| `RecordingProtocol.StuckExactlyWhen` | `agent/internal/recordreplay/manager.go:291-307` | the manager wedges (Finalizing with the case saved and nobody left to clear it) by exactly one step: the capture of the current session ending after that session was saved |
| `RecordingProtocol.StuckForever` | `agent/internal/recordreplay/manager.go:238-246` | once wedged, no later recording, recovery or replay ever begins |
| `RecordingProtocol.OrderlyRunsNeverStick` | `agent/internal/recordreplay/manager.go:322-331` | if every stop decides only after the current capture has ended, the manager never wedges, and a recording begins exactly when nothing is unsaved or being written and no replay is on |
| `RecordingProtocol.DisorderlyDecisionCanStick` | `agent/internal/recordreplay/manager.go:331-355` | a stop that decides while the current capture still runs can end wedged |
| `RecordingProtocol.OvertakenStopSticks` | `agent/internal/recordreplay/manager.go:312-355` | and it happens from the start: a stop delayed past the end of its recording decides on the next one |
| `RecordingManager.Manager.StartRecording` | `agent/internal/recordreplay/manager.go:238-289` | in place: starts exactly when nothing is unsaved or busy, with a fresh generation and identity |
| `RecordingManager.Manager.Append` | `agent/internal/recordreplay/recording_capture.go:17-51` | in place: dropped unless the very session that captured it is running |
| `RecordingManager.Manager.CaptureEnd` | `agent/internal/recordreplay/manager.go:291-307` | in place: a capture of an older generation changes no flag |
| `RecordingManager.Manager.StopBegin` | `agent/internal/recordreplay/manager.go:313-318` | in place: the first critical section of a stop |
| `RecordingManager.Manager.StopDecide` | `agent/internal/recordreplay/manager.go:331-354` | in place: settled, wait for the finalizer, or spawn one with a snapshot of the case |
| `RecordingManager.Manager.RecoverDraft` | `agent/internal/recordreplay/recording_store.go:321-335` | in place: a draft becomes the unsaved case exactly when nothing is busy or unsaved |
| `RecordingManager.Manager.WriteFails` | `agent/internal/recordreplay/recording_store.go:38-53` | in place: a failed write frees its own session for a retry, and only its own |
| `RecordingManager.Manager.RecordResult` | `agent/internal/recordreplay/recording_store.go:58-70` | in place: a successful write marks its own session saved, and only its own |
| `RecordingManager.Manager.FinalizerLeaves` | `agent/internal/recordreplay/recording_store.go:74-81` | in place: the last critical section of a finalizer |
| `RecordingManager.Manager.StartReplay` | `agent/internal/recordreplay/manager.go:449-492` | in place: starts exactly when nothing is unsaved or busy |
| `RecordingManager.Manager.FinishReplay` | `agent/internal/recordreplay/manager.go:538-547` | in place: a replay stops running and begins to finalize |
| `TouchTimeline.Validate` | `agent/internal/recordreplay/model.go:103-164` | the loop with a running previous offset accepts exactly the valid timelines: every action in range and well-formed, offsets in order |
| `TouchTimeline.RefusedExactlyWhen` | `agent/internal/recordreplay/model.go:103-164` | the validator refuses exactly: more than 10000 actions, an offset outside a day or before its predecessor, a duration outside a minute, and every malformed action, type by type |
| `TouchTimeline.TouchesLandOnScreen` | `agent/internal/recordreplay/normalize.go:113-121` | a touch outside the glass counts at the nearest point of it |
| `TouchTimeline.ContactsAccepted` | `agent/internal/recordreplay/model.go:139-162` | the loop with a set of seen indices accepts exactly 2 to 10 contacts with distinct indices 0 to 9 and points on the screen |
| `TouchTimeline.SortByIndex` | `agent/internal/recordreplay/normalize.go:75-84` | sorting by slot keeps exactly the same gestures |
| `TouchTimeline.SpanSurvivesSorting` | `agent/internal/recordreplay/normalize.go:62-74` | first press and last lift of a group do not depend on the order of its contacts |
| `TouchTimeline.Normalizer.Feed` | `agent/internal/recordreplay/normalize.go:30-60` | in place: a lift that ends the group emits its one action, every other event emits nothing |
| `TouchTimeline.Normalizer.Finish` | `agent/internal/recordreplay/normalize.go:62-111` | in place: sorting the completed contacts and the four shapes of action |
| `TouchGrouping.GroupsAreSummedUp` | `agent/internal/recordreplay/normalize.go:30-111` | at every moment of every stream a touch completes an action exactly when it lifts the last finger; one finger gives the tap, long press or swipe of its press and lift, several give one multi-touch from the first press to the last lift that lists each finger's press and lift point by slot |
| `TouchGrouping.AppendingPairsUp` | `agent/internal/recordreplay/recording_capture.go:57-80` | appending one by one gives what pairing neighbouring taps from the front gives: two taps within 350 ms and 0.03 |
| `TouchGrouping.RecordedIsPairedUp` | `agent/internal/recordreplay/recording_capture.go:17-80` | for every stream from a fresh recorder: the recorded actions are what arrived outside the excluded areas, in order, with neighbouring taps paired off |
| `TouchGrouping.PairingKeepsEverything` | `agent/internal/recordreplay/recording_capture.go:57-80` | each recorded action is one that arrived, or the double tap of two neighbouring taps |
| `TouchGrouping.NothingIsLeftApart` | `agent/internal/recordreplay/recording_capture.go:63-70` | no two neighbouring recorded taps that make a double tap are left apart |
| `TouchRecording.AppendConservesTaps` | `agent/internal/recordreplay/recording_capture.go:57-80` | merging two taps into a double tap conserves the number of taps and touches no other action |
| `TouchRecording.Recorder.AppendActions` | `agent/internal/recordreplay/recording_capture.go:57-80` | in place: the append loop with its exclusion and merge |
| `TouchRecording.Recorder.CaptureEvent` | `agent/internal/recordreplay/recording_capture.go:17-51` | in place: an event's actions are appended |
| `TouchRecording.Recorder.SetExcluded` | `agent/internal/recordreplay/recording_capture.go:225-240` | in place: the excluded area changes, what is recorded does not |
| `TouchRecording.EmitsOncePerGroup` | `agent/internal/recordreplay/normalize.go:30-60` | an event emits one action exactly when it lifts the last finger of a group |
| `TouchRecording.OneFinger` | `agent/internal/recordreplay/normalize.go:30-111` | a press, any moves and the lift of a single finger give exactly one tap, long press or swipe between the points where it went down and up |
| `TouchRecording.GroupListsEveryFinger` | `agent/internal/recordreplay/normalize.go:62-95` | a group of several fingers gives one multi-touch that lists every finger once, in slot order, with its own points |
| `TouchRecording.GroupAcceptedExactlyWhen` | `agent/internal/recordreplay/model.go:139-162` | the validator accepts a group's action exactly when its offset and duration are in range and no slot occurs twice |
| `TouchRecording.AppendAcceptedExactlyWhen` | `agent/internal/recordreplay/model.go:103-120` | appending to a valid timeline keeps it valid exactly when the action is valid, not earlier than the last one, and there is room |
| `TouchRecording.AppendOneAcceptedExactlyWhen` | `agent/internal/recordreplay/recording_capture.go:57-80` | whatever is recorded, an append keeps it valid exactly when it is skipped, merges, or is valid, no earlier than what is recorded, and fits |
| `TouchRecording.StepAcceptedExactlyWhen` | `agent/internal/recordreplay/recording_capture.go:17-51` | the same for one event of any kind |
| `TouchRecording.RecordingValidatesExactlyWhen` | `agent/internal/recordreplay/model.go:103-164` | for every stream in clock order from a fresh recorder: it validates exactly when every finished group is skipped, merges, or used each slot once, began within a day, lasted at most a minute, follows every entry and fits, and every entry came within a day and fits |
| `TouchRecording.WellBehavedStreamValidates` | `agent/internal/recordreplay/model.go:103-164` | from a fresh recorder: a stream of up to 10000 events within a day, with groups of at most a minute, no slot used twice in a group and entries only between groups, always validates |
| `TouchRecording.StreamConservesTaps` | `agent/internal/recordreplay/recording_capture.go:57-80` | for every stream the taps in the recording are the taps emitted outside the excluded area |
| `TouchRecording.RepressedSlotIsRejected` | `agent/internal/recordreplay/normalize.go:44-60` | a slot lifted and pressed again inside a group makes an action the validator rejects |
| `TouchRecording.KeyDuringGestureBreaksOrder` | `agent/internal/recordreplay/recording_capture.go:145-161` | for every press, key and lift in this order within the limits: rejected exactly when the key's millisecond is later than the press's and the stroke is not skipped |
| `TouchRecording.EntryDuringStrokeAcceptedExactlyWhen` | `agent/internal/recordreplay/recording_capture.go:98-203` | the same for every key, text and screenshot entry, with the limits as part of the condition |
| `TouchRecording.Recorder.AppendEntered` | `agent/internal/recordreplay/recording_capture.go:98-203` | in place: an admissible entry is stamped with the time since the start and appended; others change nothing |
| `TouchRecording.EntryIsRecordedExactlyWhen` | `agent/internal/recordreplay/recording_capture.go:98-203` | a key, text or screenshot entry is recorded exactly if it makes a well-formed action; it is never merged or skipped, and carries what was entered, when, and for a text where it goes |
| `TouchRecording.FocusIsTheLatest` | `agent/internal/recordreplay/recording_capture.go:132-143` | the focus of a text without a place is where the latest tap, double tap or long press on the screen went |
| `TouchRecording.Recorder.FindFocus` | `agent/internal/recordreplay/recording_capture.go:132-143` | the backward loop finds where the latest tap or press went |
| `ReplayVerdict.Replay.Execute` | `agent/internal/recordreplay/replay_execute.go:112-171` | in place: one action is claimed, attempted and finished; it stops the replay exactly when it does not succeed, for the reason its attempt gives: cancelled, not in front, failed input, failed assertion |
| `ReplayVerdict.Replay.RunCycle` | `agent/internal/recordreplay/replay_execute.go:106-174` | in place: a cycle executes its actions in order and stops at the first that fails |
| `ReplayVerdict.Replay.Run` | `agent/internal/recordreplay/replay_execute.go:85-189` | in place: a completed run has executed the steps of all its cycles, in order, each once; any other has ended for the reason the device gave, or has had nothing go wrong up to the horizon |
| `ReplayVerdict.OneReason` | `agent/internal/recordreplay/replay_execute.go:85-189` | what the device does determines the reason: no two reasons fit the same attempts and pauses |
| `ReplayVerdict.StepCount` | `agent/internal/recordreplay/replay_execute.go:106-118` | n cycles of A actions resumed at r have (A - r) + (n - 1) * A steps |
| `ReplayVerdict.CountsOnce` | `agent/internal/recordreplay/replay_execute.go:117-119` | their step ids are pairwise distinct, so the receipts number exactly that many |
| `ReplayVerdict.PassedMeansFullCycle` | `agent/internal/recordreplay/recording_store.go:482-490` | "passed" implies one full cycle executed every action in order with every screenshot assertion within its distance |
| `ReplayVerdict.PassesExactlyWhen` | `agent/internal/recordreplay/recording_store.go:482-490` | a completed replay is "passed" exactly when it has assertions and either one loop from the start or two loops resumed at the end |
| `ReplayVerdict.ReplayCase` | `agent/internal/recordreplay/replay_execute.go:85-189` | from start to verdict: the reason is the only one the device allows; the verdict is "failed" exactly when the persisted replay stopped at a screenshot that failed or lay beyond its distance, and "passed" exactly in the cases above |
| `CanonicalHierarchy.PartsAreInjective` | `agent/internal/automation/provider.go:488-495` | length-prefixed parts are uniquely decodable: equal encodings come from equal lists |
| `CanonicalHierarchy.StructureDeterminesShape` | `agent/internal/automation/provider.go:316-352` | equal structure buffers come from forests of the same shape |
| `CanonicalHierarchy.SameShapeSameStructure` | `agent/internal/automation/provider.go:316-352` | and forests of the same shape have equal structure buffers |
| `CanonicalHierarchy.CanonicalIsInjective` | `agent/internal/automation/provider.go:316-373` | structure and attribute buffers are equal exactly when the labelled forests are, presence and values included |
| `CanonicalHierarchy.AnalyzeHierarchy` | `agent/internal/automation/provider.go:316-373` | the scanning loop over start and end tags writes exactly the canonical form of the document's forest |
| `CanonicalHierarchy.FingerprintDetermines` | `agent/internal/automation/provider.go:352-373` | with an injective hash, fingerprints are equal exactly when the forests of node elements are |
| `CanonicalHierarchy.NodeIdentity` | `agent/internal/automation/provider.go:459-470` | the branches of the identity encode the class and the first anchor present |
| `CanonicalHierarchy.IdentitiesCollideExactlyWhen` | `agent/internal/automation/provider.go:459-470` | two nodes share an identity exactly when their classes and resource ids agree and, without a resource id, their wording and, without any wording, their bounds |
| `BoundedLog.KeptIsLongestSuffix` | `agent/internal/runner/diagnostic_stream.go:36-56` | what the tail keeps is the longest suffix of the lines sent to it that fits the byte limit |
| `BoundedLog.KeptStep` | `agent/internal/runner/diagnostic_stream.go:45-51` | dropping lines early loses nothing that would still be kept later |
| `BoundedLog.BoundedLineLog.Add` | `agent/internal/runner/diagnostic_stream.go:36-56` | in place: lazy compaction never changes the value, and dead slots never exceed both 4096 and the live ones |
| `BoundedLog.BoundedLineLog.AppendToTail` | `agent/internal/runner/diagnostic_stream.go:45-51` | in place: the dropping loop leaves exactly the longest fitting suffix |
| `BoundedLog.BoundedLineLog.Value` | `agent/internal/runner/diagnostic_stream.go:57-64` | head, the omission mark exactly when something was dropped, and the kept tail |
| `BoundedLog.ScopedLogWriter.Write` | `agent/internal/runner/diagnostic_stream.go:89-106` | in place: hands on the complete lines of what is pending, and an unfinished one beyond 64 KiB |
| `BoundedLog.ScopedLogWriter.AddLineLocked` | `agent/internal/runner/diagnostic_stream.go:108-138` | in place: process bookkeeping and scope test of one line |
| `BoundedLog.ScopedLogWriter.Snapshot` | `agent/internal/runner/diagnostic_stream.go:140-148` | in place: the unfinished line is flushed first |
| `BoundedLog.Capture` | `agent/internal/runner/diagnostic_stream.go:89-148` | a whole stream written in any chunks and then read |
| `BoundedLog.SnapshotIgnoresChunks` | `agent/internal/runner/diagnostic_stream.go:89-148` | when no line exceeds the limit by more than one byte the snapshot depends only on the concatenated bytes |
| `LogScope.LogHoldsWhatBelongs` | `agent/internal/runner/diagnostic_stream.go:108-138` | for every stream of lines the log gets exactly the lines that mention the app or come from one of its living processes, redacted, in order; a process lives from its start, or its birth in such a line, to its death |
| `LogOrder.HeadTakesWhatFits` | `agent/internal/runner/diagnostic_stream.go:36-51` | each line goes to the head exactly when the head still has room for it as it comes, otherwise to the tail; both keep the order of arrival |
| `LogOrder.LinesAreShortened` | `agent/internal/runner/diagnostics.go:774-780` | a line is added without the white space around it, cut after 4096 characters |
| `LogOrder.SnapshotShows` | `agent/internal/runner/diagnostic_stream.go:57-64` | a snapshot is the head and the longest run of last tail lines that fits 7.5 MiB, after a mark exactly if any were dropped |
| `LogOrder.OrderKeptExactlyWhen` | `agent/internal/runner/diagnostic_stream.go:36-51` | head and tail together keep the order of arrival exactly when no line fits after one that did not, for any head size |
| `LogOrder.LogKeepsOrderExactlyWhen` | `agent/internal/runner/diagnostic_stream.go:36-51` | the same for the log and its 512 KiB |
| `LogOrder.ShortLineOvertakes` | `agent/internal/runner/diagnostic_stream.go:39-43` | it fails after 127 lines of 4095 characters: a line of 4096 is overtaken by a short one |
| `LineChunks.BoundedStreamsIgnoreChunks` | `agent/internal/runner/diagnostic_stream.go:89-106` | for such streams the lines handed on are the lines of the concatenation, however it is cut |
| `LineChunks.LongLinesDependOnChunks` | `agent/internal/runner/diagnostic_stream.go:98-104` | the bound is exact: any stream with a longer line can be cut so that one line more is handed on |
| `LogRotation.ShiftBackups` | `agent/internal/logrotation/rotation.go:97-110` | the descending loop moves every backup up by one and loses only the oldest |
| `LogRotation.RotateBackups` | `agent/internal/logrotation/rotation.go:97-123` | with and without compression: the live content becomes backup 1 |
| `LogRotation.ShiftKeepsChronicle` | `agent/internal/logrotation/rotation.go:97-123` | a rotation keeps the files a suffix of what was written, dropping at most the oldest piece |
| `LogRotation.AppendKeepsChronicle` | `agent/internal/logrotation/rotation.go:37-58` | an append keeps it too, each piece at most max(MaxBytes, one write) |
| `LogRotation.FilesAreASuffix` | `agent/internal/logrotation/rotation.go:37-123` | path.N ... path together are a suffix of everything written, each file a run of whole writes, in at most Backups+1 pieces, each at most max(MaxBytes, one write) |
| `LogRotation.Writer.constructor` | `agent/internal/logrotation/rotation.go:21-35` | opening takes over the files that are there, rotating a live file that is already full |
| `LogRotation.Writer.Write` | `agent/internal/logrotation/rotation.go:37-60` | in place: the data goes to the end of the live file, after a rotation exactly when it would not fit |
| `IncidentAggregation.SortedIsOrdered` | `agent/internal/runner/diagnostics.go:591-599` | the stable sort puts timed observations in time order before untimed ones |
| `IncidentMerging.SortIsStable` | `agent/internal/runner/diagnostics.go:591-599` | observations of one time, and those without a time, stay in the order they came in |
| `IncidentMerging.ObservationJoinsExactlyWhen` | `agent/internal/runner/diagnostics.go:600-637` | the next observation joins the latest comparable occurrence exactly when it belongs to it: the same words, an exit record within two seconds, or two lines of one crash within half a second; otherwise it starts its own, and no other occurrence changes |
| `IncidentMerging.OccurrencesShowTheirReports` | `agent/internal/runner/diagnostics.go:618-630` | every occurrence has the kind and process of its reports, the words of the first most telling one, and the times of the first and the last |
| `IncidentMerging.IncidentsShowTheirOccurrences` | `agent/internal/runner/diagnostics.go:638-661` | every incident shows the first occurrence with its fingerprint and was last seen with the last one that has a time |
| `IncidentMerging.IncidentsShowTheObservations` | `agent/internal/runner/diagnostics.go:587-666` | both for every list of observations |
| `IncidentAggregation.ClustersPartition` | `agent/internal/runner/diagnostics.go:600-637` | each observation lands in exactly one occurrence, of one kind, with at most one non-zero process id, timed neighbours at most two seconds apart, and exactly the sources of its members |
| `IncidentAggregation.Place` | `agent/internal/runner/diagnostics.go:602-636` | the backward scan with its continue and break merges into the last comparable occurrence or starts a new one |
| `IncidentAggregation.TallyCountsOccurrences` | `agent/internal/runner/diagnostics.go:638-661` | fingerprints are pairwise distinct, each counts exactly the occurrences that have it, and the counts add up to the number of occurrences |
| `IncidentAggregation.TallyKeepsSources` | `agent/internal/runner/diagnostics.go:654-656` | an incident names exactly the sources of its occurrences |
| `IncidentAggregation.AggregateIncidents` | `agent/internal/runner/diagnostics.go:587-666` | the two nested loops compute the tally of the clusters of the sorted observations |
| `IncidentAggregation.IncidentsAccountForEveryObservation` | `agent/internal/runner/diagnostics.go:587-666` | all of this for every list of observations |
| `IncidentAggregation.RepeatsAreCounted` | `agent/internal/runner/diagnostics.go:587-674` | repeats of one report, in any order of arrival, come out as one incident counting the pauses longer than two seconds plus one |
| `IncidentAggregation.AggregateExits` | `agent/internal/runner/diagnostics.go:496-522` | each exit fingerprint once, with its multiplicity in the input, its first record and its first and last times |
| `ActivityMemory.NotedAllKeepsShape` | `agent/internal/exploration/activity_memory.go:93-109` | any run of arrivals keeps at most 4096 actions and 48 targets each, with positive counts |
| `ActivityMemory.CountedExactlyOrRefused` | `agent/internal/exploration/activity_memory.go:93-109` | over any run a named pair that is no return is counted exactly as often as it arrived, or not at all, and the latter only while 4096 other actions or 48 other targets leave no room for it; no other pair is ever counted |
| `ActivityMemory.SavedFormIsUnique` | `agent/internal/exploration/activity_memory.go:148-169` | equal tables are saved as the same sequence, whatever order the maps are walked in |
| `ActivityMemory.ReadTableIsCanonical` | `agent/internal/exploration/activity_memory.go:75-89` | whatever entries a file holds, what is read has non-empty names and positive counts |
| `ActivityMemory.ReadInvertsSave` | `agent/internal/exploration/activity_memory.go:75-90` | saving then loading gives back the same table |
| `ActivityMemory.TotalBounds` | `agent/internal/exploration/activity_memory.go:113-136` | the unseen share is nothing exactly when every target is visited and everything exactly when none is |
| `ActivityMemory.Memory.constructor` | `agent/internal/exploration/activity_memory.go:51-91` | a missing file is an empty table; one that is unreadable or of another package, version or schema is left alone for good |
| `ActivityMemory.Memory.Note` | `agent/internal/exploration/activity_memory.go:93-109` | in place: one arrival counted or refused |
| `ActivityMemory.Memory.SaveTable` | `agent/internal/exploration/activity_memory.go:148-169` | walking the maps in any order and sorting gives the saved form |
| `ActivityMemory.Memory.Save` | `agent/internal/exploration/activity_memory.go:138-175` | a corrupt file is never overwritten; otherwise what is written reads back as the table |
| `ActivityMemory.Memory.UnseenFraction` | `agent/internal/exploration/activity_memory.go:113-136` | a number in [0,1], 0 exactly when all known destinations are visited, 1 exactly when none is |

## Left out

- Devices, shells, captures, screenshots and hierarchies: the outcomes of device calls (executed, stale, failed, refused) and the captured pages are inputs.
- Label, language, purchase, ad and launcher heuristics and the float ranking: arbitrary predicates and an arbitrary rank. Ties in the rank are broken by page order, where the source's sort leaves them open.
- Clocks: times and cooldown expiries are inputs; durations are compared as the source compares them. Timeouts of stop callers are a step at which they return.
- SHA-256, random tokens and the text of ids: ids and keys are the values before hashing or formatting, so they are equal only when those are.
- Integer widths: only the coordinator's 64-bit generation can matter, and its wrap-around is modelled; the other counters are unbounded.
- Limits on consecutive capture, parse and input failures, and the battery guard: they end a session. Settling, startup and transient-controller holds, empty captures and guarded activities: they skip a turn and change no modelled state.
- Counters of ads, unstable captures, activities and input fields, and the choice of blind gestures on unlabeled surfaces; the gestures themselves are session actions.
- The label text of cycle events, last action, current observation and artifact paths in the published state.
- ExplorationManager: does not feed or save the activity memory while settling a page; the memory is verified on its own in ActivityMemory.
- ExplorationManager: the guards of Start (configuration, foreground) and the goroutine structure of run are in SessionLifecycle only as steps.
- SessionLifecycle: does not model the writing of artifacts between Finalizing and the release, which touches no modelled state.
- RecordingProtocol.EveryInterleaving: assumes that the draft is written and the device acquired when a recording starts; the source has already replaced the current case when the draft write fails (agent/internal/recordreplay/manager.go:258-276).
- RecordingProtocol: a done channel is closed in the critical section before it, and a write that reaches the disk counts as published even if the process then dies; pruning of old cases is not modelled.
- RecordingProtocol.Apply: the capture's own error text and the coordinator calls of a finalizer are not part of the state; device ownership is proved in DeviceOwnership.
- TouchTimeline.Normalizer.Feed: points are reals and distances are compared squared, so rounding of coordinates and of Hypot is not modelled.
- TouchRecording.Recorder.CaptureEvent: does not attach the semantic targets found under a finger, which do not enter timing or contacts.
- TouchTimeline.Validate: covers the action list (timeline, coordinates, contacts, per-type fields); the case's names, schema, display size and asset paths are not modelled.
- ReplayVerdict.Replay.Run: a replay with unlimited loops is cut at an arbitrary horizon, at which it is still running; pixel conversion, speed and pauses between actions do not enter the verdict.
- CanonicalHierarchy.AnalyzeHierarchy: starts from the parsed start and end tags, not from XML text; the comparison of two providers' documents is not modelled.
- BoundedLog.Shorten: trims ASCII white space only, and characters stand for bytes.
- BoundedLog.ScopedLogWriter.AddLineLocked: reading process ids, births and deaths off a line is an arbitrary function of the line.
- LogRotation.Writer.Write: file operations succeed, gzip is the identity on content, and expiry by age is left out.
- IncidentAggregation.AggregateIncidents: reading observations off log text, hashing of fingerprints, repeat summaries and the final sort of source names are left out; SameOccurrence's paired-line test and the evidence rank are arbitrary functions.
- ActivityMemory.Memory.Save: names are ordered character by character, JSON text and the file write are not modelled, and a file edited by hand may hold more than the limits, which loading does not enforce.
- HTTP handlers, the command line, the web console, LAN authentication, WebSocket bridges, the monkey runner's own manager, artifact publication and evidence indexes: plumbing around the modelled parts, or separate and easier.
