# Verification model of the desktop workspace

The desktop application supervises a bundled local service, embeds a browser, edits project files after review and
talks to a model. This project models the parts of it where steps interleave or where an incremental piece of code
stands for a simple rule, and proves what those parts promise for every input and every run.

`dafny verify dfyconfig.toml` checks everything. Modules, in the order of their weight:

- `SidecarState`, `SidecarProtocol`, `SidecarInvariant`, `SidecarTheorems`, `SidecarProgress`: the supervisor.
  `SidecarManager` is the object with one method per critical section; `Manager` is the value of its fields and says what each method does.
  The protocol interleaves the launch, restart timer, watcher, forced stop, stability timer and shutdown tasks, real
  process exits and outside calls, one lock-held section at a time. It records which processes are alive, who holds
  each control handle, and how often each was killed or written to.
- `SurfaceLease`, `SurfaceCalls`, `SurfaceOvertake`: the lease on the native browser surface. Every show and hide
  is a task with a program point (queued, loading the native module, in flight, settled); calls and task steps interleave freely.
- `WorkPlan`, `WorkPlanGraph`, `WorkPlanProgress`: the work plan parser with its four maps against a definition
  without maps, the dependency and replacement graph of accepted plans, and the summary against the two validators.
- `AiStream`: the read loop of the chat stream against one leftmost split of the whole text.
- `AiProgress`: the progress fold against the list validator.
- `WorkspaceTerminal`: the terminal ring against the full byte history.
- `DesktopLog`: log rotation against the full line history.
- `BrowserTabs`: tabs, revisions and page captures under serialized commands and interleaved native events.
- `FileBaselines`: edit baselines with a time limit and terminal conflicts.
- `RequestLifetime`: the two-clock lifetime of a file request carried through review.

Where the code differs from what its comments suggest, the code is modelled and the difference is a lemma:

- A show waits only for the hide that was latest when it was requested, so an older hide may still be in flight
  (`SurfaceLease.OlderHideMayStillRun`): exactly if neither the show nor one before it was queued behind that hide
  (`SurfaceOvertake.ShowOvertakesHide`).
- A plan continuation accepted as ready may still have a step the summary counts as waiting for approval or to be
  recovered (`WorkPlanProgress.ReadyMayAwaitChildApproval`, `ReadyMayHoldRetainedRun`);
  `WorkPlanProgress.ReadyLeavesChildAndRetained` says exactly which.
- A failed tab creation can move the active tab (`BrowserTabs.FailedCreationMovesActive`, and
  `FailedCreationMayMoveActive` with the exact condition).
- A page capture misses a navigation in between exactly if the last one to start there reuses the navigation identity
  seen at the first check (`BrowserTabs.CaptureSawNoNavigation`, `RepeatedIdentityHidesNavigation`).
- The monotonic deadline belongs to one checked request: decoding the bytes again after the wall clock fell behind
  gives a later one (`RequestLifetime.RecheckExtendsOnlyIfWallLags`).

## Model

| member | source | states |
|---|---|---|
| SidecarState.StaleUpdatesChangeNothing | apps/desktop/src-tauri/src/sidecar.rs:380-551 | an update gated on a generation that is not live, or made after shutdown began, changes no field at all, and a forced stop then takes no handle |
| SidecarState.SidecarManager.constructor | apps/desktop/src-tauri/src/sidecar.rs:311-321 | a new manager has no child, no generation, an unspent budget and no shutdown |
| SidecarState.SidecarManager.SetErrorIfCurrent | apps/desktop/src-tauri/src/sidecar.rs:504-521 | an error of a generation is published only while it is live and no shutdown has begun |
| SidecarState.SidecarManager.SetErrorUnlessShuttingDown | apps/desktop/src-tauri/src/sidecar.rs:484-502 | an error outside any generation is published unless shutdown has begun |
| SidecarState.SidecarManager.SetStartingIfCurrent | apps/desktop/src-tauri/src/sidecar.rs:380-394 | the session token of a generation is published only while it is live |
| SidecarState.SidecarManager.SetReady | apps/desktop/src-tauri/src/sidecar.rs:437-459 | Ready is published only for the live generation, with its URL and token |
| SidecarState.SidecarManager.SetRestarting | apps/desktop/src-tauri/src/sidecar.rs:414-435 | Restarting is published only while the ticket is still scheduled, and clears URL and token |
| SidecarState.SidecarManager.SpawnAndRegister | apps/desktop/src-tauri/src/sidecar.rs:562-586 | refuses after shutdown began or while a child or generation is left; otherwise the process, its handle and a new generation are registered together |
| SidecarState.SidecarManager.MarkExited | apps/desktop/src-tauri/src/sidecar.rs:588-623 | only the live generation is marked exited, once; its exit is recorded, its handle dropped, and the error status set unless shutdown owns the status |
| SidecarState.SidecarManager.WaitForExitNow | apps/desktop/src-tauri/src/sidecar.rs:625-648 | a waiter accepts an exit record only of the generation it waits for |
| SidecarState.SidecarManager.RequestChildKill | apps/desktop/src-tauri/src/sidecar.rs:650-679 | a forced stop takes the handle only of the live generation and never after shutdown began; another handle is put back |
| SidecarState.SidecarManager.ReserveRestart | apps/desktop/src-tauri/src/sidecar.rs:681-707 | a restart is reserved only with nothing live, stored or scheduled and budget left |
| SidecarState.SidecarManager.ClaimRestart | apps/desktop/src-tauri/src/sidecar.rs:709-724 | only the scheduled ticket is claimed, and not after shutdown began or with anything live |
| SidecarState.SidecarManager.ResetBudgetIfStable | apps/desktop/src-tauri/src/sidecar.rs:726-748 | the budget is reset only for the live Ready generation |
| SidecarState.SidecarManager.BeginShutdown | apps/desktop/src-tauri/src/sidecar.rs:834-860 | the first caller becomes owner, cancels the scheduled restart and remembers the live generation; every other caller waits |
| SidecarState.SidecarManager.TakeForShutdown | apps/desktop/src-tauri/src/sidecar.rs:870-892 | shutdown takes the handle only of the generation it remembered |
| SidecarState.SidecarManager.FinishShutdown | apps/desktop/src-tauri/src/sidecar.rs:862-868 | completion is recorded and nothing else changes |
| SidecarInvariant.NextKeeps | apps/desktop/src-tauri/src/sidecar.rs:562-960 | every critical section of every task, every real exit and every outside call keeps the invariant on the shared state and on what each task relies on |
| SidecarInvariant.NextIsForward | apps/desktop/src-tauri/src/sidecar.rs:834-868 | once shutdown has begun it stays begun with the same owner and remembered generation, a completed shutdown stays complete, no process is spawned and no restart claimed; no spawned process is ever forgotten |
| SidecarInvariant.NextIsPermanent | apps/desktop/src-tauri/src/sidecar.rs:562-960 | no step changes a recorded exit, drops or reorders claimed tickets, counts a generation, a kill or a write back, or gives a handle back to the manager |
| SidecarTheorems.Reachable | apps/desktop/src-tauri/src/sidecar.rs:1006-1077 | every interleaving from application start keeps the invariant |
| SidecarTheorems.LaunchesExclude | apps/desktop/src-tauri/src/sidecar.rs:562-586 | launch pending, generation live and restart scheduled exclude one another; no ticket is claimed twice; the "previous generation not exited" refusal never happens; a scheduled restart still has its timer |
| SidecarTheorems.RestartsAreRationed | apps/desktop/src-tauri/src/sidecar.rs:681-748 | at most two restarts are claimed between stability resets, so launches never exceed 1 + 2 * (resets + 1) |
| SidecarTheorems.ReservationsAreFresh | apps/desktop/src-tauri/src/sidecar.rs:681-707 | a reserved ticket is above every claimed one, its attempt is within the budget and its delay is 500 ms, then 2000 ms; it is refused exactly when the budget is spent |
| SidecarTheorems.OnlyReadyResetsBudget | apps/desktop/src-tauri/src/sidecar.rs:726-748 | restart attempts are given back only by the stability timer of the live Ready generation with its handle still stored, and then all of them |
| SidecarTheorems.OneLiveProcess | apps/desktop/src-tauri/src/sidecar.rs:562-623 | at most one spawned process has no recorded exit, it is exactly the active generation, and recorded exits are how processes really ended |
| SidecarTheorems.HandlesMoveOnce | apps/desktop/src-tauri/src/sidecar.rs:650-679 | each generation gets at most one kill and one shutdown write, no write after a forced stop took its handle, and no handle has two holders at a time |
| SidecarTheorems.HistoryIsPermanent | apps/desktop/src-tauri/src/sidecar.rs:562-960 | over every continuation of a run: recorded exits stay as recorded, claimed tickets stay claimed in order, generations, kills and writes are only added |
| SidecarTheorems.HandleNeverReturns | apps/desktop/src-tauri/src/sidecar.rs:650-679 | a control handle that left the manager never returns to it, so it is taken at most once |
| SidecarTheorems.GenerationsIncrease | apps/desktop/src-tauri/src/sidecar.rs:574-586 | a registered generation is above every earlier one |
| SidecarTheorems.ShutdownHasOneOwner | apps/desktop/src-tauri/src/sidecar.rs:834-868 | at most one task owns the shutdown, and no caller returns before that owner finished |
| SidecarTheorems.OwnerIsForever | apps/desktop/src-tauri/src/sidecar.rs:834-860 | once begun, the shutdown keeps its owner, and no process is spawned and no restart claimed any more |
| SidecarTheorems.RestartOkIsSafe | apps/desktop/src-tauri/src/sidecar.rs:756-822 | shutdown_for_restart returns Ok only when now and for ever no process is alive or spawned, and the generation live at shutdown ended with code 0 and no signal |
| SidecarTheorems.NothingRevives | apps/desktop/src-tauri/src/sidecar.rs:834-960 | after shutdown began with nothing live, nothing becomes live again |
| SidecarTheorems.StatusIsCoherent | apps/desktop/src-tauri/src/sidecar.rs:380-560 | Ready with a generation means it is live and no shutdown began; Error and Restarting publish no URL and no token; a bundled token is published only for the live generation |
| SidecarProgress.ReliedReachable | apps/desktop/src-tauri/src/sidecar.rs:562-960 | in every run the latest generation is live or has its exit recorded, a pending ticket is still scheduled until shutdown begins, a watched process is the live one, and an owner has done what its stage says |
| SidecarProgress.RestartIsAnswered | apps/desktop/src-tauri/src/sidecar.rs:807-822 | once the shutdown is complete the next step answers shutdown_for_restart: Ok exactly if no process was live or it is recorded to have ended with code 0 and no signal |
| SidecarProgress.ExitLeadsToSchedule | apps/desktop/src-tauri/src/sidecar.rs:1249-1255 | a recorded exit leads to a restart exactly while no shutdown has begun |
| SidecarProgress.ScheduleReserves | apps/desktop/src-tauri/src/sidecar.rs:1047-1070 | without a shutdown a restart is scheduled, with a fresh ticket and one attempt used, exactly while fewer than two attempts are used; otherwise the supervisor gives up |
| SidecarProgress.GivingUpShows | apps/desktop/src-tauri/src/sidecar.rs:1062-1069 | giving up shows the error |
| SidecarProgress.TicketLeadsToLaunch | apps/desktop/src-tauri/src/sidecar.rs:1047-1061 | a reserved ticket is announced and then claimed for a launch exactly while no shutdown has begun |
| SidecarProgress.LaunchSpawns | apps/desktop/src-tauri/src/sidecar.rs:562-586 | a launch registers the next generation live and with its handle; it fails only with the spawn or because of a shutdown |
| SidecarProgress.FailedLaunchIsRetried | apps/desktop/src-tauri/src/sidecar.rs:1039-1045 | a failed launch shows the error and leads to another restart |
| SidecarProgress.ProcessesAreReplaced | apps/desktop/src-tauri/src/sidecar.rs:1039-1070 | while restarts are left and no shutdown has begun, the task that saw a process end brings up the next generation by its own steps |
| SidecarProgress.HealthyMeansReady | apps/desktop/src-tauri/src/sidecar.rs:1202-1224 | a passed health check publishes URL, token and generation as Ready and starts the stability timer; a failed one asks for a forced stop |
| SidecarProgress.StartedShows | apps/desktop/src-tauri/src/sidecar.rs:1130-1147 | a new process is shown as starting with its token |
| SidecarProgress.StableGenerationsEarnRestarts | apps/desktop/src-tauri/src/sidecar.rs:726-748 | the stability timer gives the attempts back exactly for the live Ready generation with its handle and no shutdown |
| SidecarProgress.ExitsAreRecorded | apps/desktop/src-tauri/src/sidecar.rs:588-623 | the end of a process is recorded as it really was, its handle dropped, and a restart follows |
| SidecarProgress.TroubleStopsProcess | apps/desktop/src-tauri/src/sidecar.rs:1197-1248 | which events ask for a forced stop, and when they are ignored |
| SidecarProgress.LostProcessesShow | apps/desktop/src-tauri/src/sidecar.rs:1150-1264 | a closed event stream or an unconfirmed stop shows the error of the live process |
| SidecarProgress.StopTakesAndKills | apps/desktop/src-tauri/src/sidecar.rs:1296-1322 | a forced stop takes the handle, kills once and shows the error, and leaves the process to a shutdown that has begun |
| SidecarProgress.StartUpChooses | apps/desktop/src-tauri/src/sidecar.rs:1006-1037 | start-up launches the bundled service or adopts an external one, shown Ready once healthy |
| SidecarProgress.FirstCallerOwns | apps/desktop/src-tauri/src/sidecar.rs:834-860 | the first caller owns the shutdown, cancels restarts and remembers the live generation; others wait or are refused |
| SidecarProgress.CallersAreAnswered | apps/desktop/src-tauri/src/sidecar.rs:756-805 | when shutdown_for_restart is refused, judged or begins a shutdown, and that a waiter returns exactly at completion |
| SidecarProgress.OwnerAsksFirst | apps/desktop/src-tauri/src/sidecar.rs:870-915 | with the handle the owner asks the process to end by one write, without it it waits, without a process it is done |
| SidecarProgress.OwnerWaits | apps/desktop/src-tauri/src/sidecar.rs:625-648 | a waiting owner goes on at once when the exit is recorded and otherwise only by its deadline, in the order ask, check, kill, give up |
| SidecarProgress.OwnerKillsAndFinishes | apps/desktop/src-tauri/src/sidecar.rs:916-945 | the owner kills once, reports, and completes the shutdown before it returns |
| SidecarProgress.ShutdownAsksThenKills | apps/desktop/src-tauri/src/sidecar.rs:870-945 | a completed shutdown left its process recorded as ended, killed, or in the hands of an earlier forced stop; the owner never kills before it asked |
| SidecarProgress.CleanRestartSucceeds | apps/desktop/src-tauri/src/sidecar.rs:756-822 | from every reachable state with a live watched service and no shutdown, there is a run in which the service ends cleanly and the restart is answered Ok |
| SidecarProgress.ShutdownEnds | apps/desktop/src-tauri/src/sidecar.rs:870-960 | after at most eleven own steps of its owner whose deadlines fire, the shutdown is complete, whatever others do |
| SurfaceLease.BrowserSurface.constructor | apps/web/src/api/browser.ts:136-139 | at load there is no owner, no task and nothing latest |
| SurfaceLease.BrowserSurface.Acquire | apps/web/src/api/browser.ts:153-156 | acquiring replaces the owner and makes every earlier request stale |
| SurfaceLease.BrowserSurface.HideNow | apps/web/src/api/browser.ts:157-168 | a hide starts at once under a fresh epoch and becomes the latest hide |
| SurfaceLease.BrowserSurface.Update | apps/web/src/api/browser.ts:169-187 | a request of another owner is ignored, null hides at once, and a show queues behind the last show and the hide latest when it was requested |
| SurfaceLease.BrowserSurface.Release | apps/web/src/api/browser.ts:188-192 | only the owner releases, and then hides with no owner left |
| SurfaceLease.BrowserSurface.Resume | apps/web/src/api/browser.ts:141-151 | a task checks its lease before loading and again before it dispatches |
| SurfaceLease.EpochDecides | apps/web/src/api/browser.ts:157-183 | the owner and epoch test of a pending task is true exactly when no acquire, hide or release came after its request |
| SurfaceLease.Reachable | apps/web/src/api/browser.ts:136-194 | every interleaving of calls and task steps keeps the surface invariant |
| SurfaceLease.NoLayoutIsStale | apps/web/src/api/browser.ts:141-151 | a layout is dispatched only if no acquire, hide or release happened since it was requested |
| SurfaceLease.LayoutsIssueInOrder | apps/web/src/api/browser.ts:172-186 | layouts are dispatched in request order |
| SurfaceLease.LastRequestWins | apps/web/src/api/browser.ts:133-194 | when all tasks have settled and the last request did not fail, it is the last layout dispatched |
| SurfaceCalls.RequestsAreCalls | apps/web/src/api/browser.ts:153-193 | read off the calls alone: each update or release by the current holder makes exactly one request, which carries the argument of that call; no other call makes any |
| SurfaceCalls.CommandsCarryArguments | apps/web/src/api/browser.ts:150 | every layout dispatched carries the argument of the call that requested it: the bounds given to update, or null for a hide or release |
| SurfaceCalls.LastArgumentWins | apps/web/src/api/browser.ts:133-194 | when all has settled and the request of the last call that counted did not fail, the last layout dispatched is the argument of that call |
| SurfaceCalls.OutcomesAreTold | apps/web/src/api/browser.ts:141-151 | a request completes exactly by a command that succeeded, fails after it only by one that failed, before it only for want of the runtime or the module, and is skipped only when its lease had gone |
| SurfaceOvertake.QueuedBehindLatest | apps/web/src/api/browser.ts:173-186 | a show is queued behind exactly the show and the hide requested last before it |
| SurfaceOvertake.WaitsReachable | apps/web/src/api/browser.ts:169-187 | in every run a show points back at an earlier show and hide and is past each of them only after it settled |
| SurfaceOvertake.ShowsWait | apps/web/src/api/browser.ts:174-183 | when a show has been dispatched or is loading, every earlier show has settled and so has every hide, of any epoch, that it or an earlier show was queued behind; a hide of its own epoch is always one |
| SurfaceOvertake.QueuedBehindNeverOvertakes | apps/web/src/api/browser.ts:171-183 | no continuation whatever dispatches a show while a hide that it or an earlier show was queued behind is in flight |
| SurfaceOvertake.ShowOvertakesHide | apps/web/src/api/browser.ts:171-183 | from any reachable state a pending current show can be dispatched while a hide is still in flight if and only if no show up to it was queued behind that hide; resuming pending tasks is then enough |
| SurfaceLease.OlderHideMayStillRun | apps/web/src/api/browser.ts:177-180 | a concrete run: a hide older than the latest one is still in flight when a later show is dispatched |
| WorkPlan.CheckDependencies | apps/web/src/api/aiWorkPlan.ts:576-592 | the loop over the two maps accepts exactly when the dependencies of the step are right as lookups in the earlier steps |
| WorkPlan.MapsDecideReplacement | apps/web/src/api/aiWorkPlan.ts:726-787 | the maps of steps, replacements and required runs decide a replacement as the plain definition does, inherited retry duty included |
| WorkPlan.CheckStep | apps/web/src/api/aiWorkPlan.ts:569-788 | one pass of the loop body accepts a step exactly when the step is right relative to the steps before it |
| WorkPlan.CheckSteps | apps/web/src/api/aiWorkPlan.ts:560-791 | the single pass with its four maps accepts exactly the lists whose every step is right on its own terms |
| WorkPlan.CheckSuperseded | apps/web/src/api/aiWorkPlan.ts:792-799 | the final loop accepts exactly when superseded_by names the step that replaces this one |
| WorkPlan.ParseAiWorkPlan | apps/web/src/api/aiWorkPlan.ts:531-802 | null gives no plan; anything else is accepted unchanged exactly when PlanOk, which is written without maps, holds; ReplacementRule, DependencyIsEarlier, AcceptedStepsAreClear and the rows below say what that means |
| WorkPlanGraph.IdsAreDistinct | apps/web/src/api/aiWorkPlan.ts:570-575 | no two steps of an accepted plan have one name |
| WorkPlanGraph.DependencyIsEarlier | apps/web/src/api/aiWorkPlan.ts:577-592 | dependencies point to earlier steps, so they are acyclic; a ready step has only ready and satisfied dependencies, an active step active ones |
| WorkPlanGraph.DependenciesAreSound | apps/web/src/api/aiWorkPlan.ts:577-592 | along every dependency path: a ready and satisfied step has only ready and satisfied transitive dependencies, and a step that is not superseded only ones that are not |
| WorkPlanGraph.ReplacerIsUnique | apps/web/src/api/aiWorkPlan.ts:726-736 | a step is replaced at most once |
| WorkPlanGraph.ReplacementIsInverse | apps/web/src/api/aiWorkPlan.ts:792-799 | replaces and superseded_by are inverse |
| WorkPlanGraph.ChainEndsActive | apps/web/src/api/aiWorkPlan.ts:726-799 | from every step the replacement chain leads to an active step |
| WorkPlanGraph.ChainIsUnique | apps/web/src/api/aiWorkPlan.ts:726-799 | that chain, and the active step at its end, is the only one |
| WorkPlanGraph.DutyTravels | apps/web/src/api/aiWorkPlan.ts:737-785 | the duty to name a failed run passes unchanged through unconfirmed replacements |
| WorkPlanGraph.FailedRunsAreNamed | apps/web/src/api/aiWorkPlan.ts:740-785 | every later step of the chain of a confirmed failed, cancelled, interrupted or retained run, up to and including the next confirmed one, names that run, and by restart only when it was retained |
| WorkPlanGraph.DutyIsFirstDebt | apps/web/src/api/aiWorkPlan.ts:737-770 | the duty a replaced step hands on is that of the first failed run or declined restart on the way down to it, or none |
| WorkPlanGraph.ReplacementRule | apps/web/src/api/aiWorkPlan.ts:726-787 | the exact rule for one replacement: the replaced step is an unsatisfied, unreplaced action that failed or was declined, and the new step names the first run left to be named on the way down, if any; otherwise it may be anything |
| WorkPlanGraph.ChainsNameFirstDebt | apps/web/src/api/aiWorkPlan.ts:737-785 | in an accepted plan every replacement names the first run left to be named on its chain |
| WorkPlanGraph.DeclinedRestartsAreNamed | apps/web/src/api/aiWorkPlan.ts:752-785 | every later step of the chain of a declined restart of run R that replaces nothing, up to and including the next confirmed one, names R |
| WorkPlanGraph.ReadyMeansDepsDone | apps/web/src/api/aiWorkPlan.ts:585 | a step is ready exactly if all its dependencies are ready and satisfied |
| WorkPlanGraph.ProposalsAndProgressAreSingle | apps/web/src/api/aiWorkPlan.ts:627-629 | no two actions share a proposal and at most one analysis is in progress |
| WorkPlanGraph.SatisfiedMeansFinished | apps/web/src/api/aiWorkPlan.ts:593-723 | an action is satisfied only on confirmed evidence, and exactly in the states that end its kind of action |
| WorkPlanGraph.AcceptedStepsAreClear | apps/web/src/api/aiWorkPlan.ts:580-669 | dependencies are listed once, an analysis shows its report or that it waits, and retries and restarts are named only by the actions for them |
| WorkPlanGraph.AcceptedHeadersVary | apps/web/src/api/aiWorkPlan.ts:541-557 | an accepted plan may have any version from 1 to 128 and any closing date that parses, and one to twelve steps |
| WorkPlanProgress.ActiveSteps | apps/web/src/api/aiWorkPlan.ts:85-87 | exactly the steps that are not superseded |
| WorkPlanProgress.CategoriesAreDisjoint | apps/web/src/api/aiWorkPlan.ts:382-397 | a step of an accepted plan is in at most one of the four categories |
| WorkPlanProgress.SomeStepIsActive | apps/web/src/api/aiWorkPlan.ts:792-799 | an accepted plan has an active step, the last one |
| WorkPlanProgress.ProgressPassesInbox | apps/web/src/api/aiWorkPlan.ts:484-523 | the summary of every accepted plan passes the count and state checks of the plan inbox |
| WorkPlanProgress.CompletedIsComplete | apps/web/src/api/aiWorkPlan.ts:244 | the summary says completed exactly when every active step is ready and satisfied, as the continuation check has it |
| WorkPlanProgress.StateSaysWhatIsLeft | apps/web/src/api/aiWorkPlan.ts:350-372 | each summary state said of the steps: completed, else something to recover, else to approve, else running or streaming, else only to continue |
| WorkPlanProgress.UnfinishedStates | apps/web/src/api/aiWorkPlan.ts:685-722 | which states a confirmed action that is not finished may be in, by kind of action |
| WorkPlanProgress.BareContinuations | apps/web/src/api/aiWorkPlan.ts:244-278 | which reasons are accepted without blockers for each accepted plan |
| WorkPlanProgress.BlockersAreOrdered | apps/web/src/api/aiWorkPlan.ts:195-257 | accepted blockers come in the fixed order of reasons, each once, the given reason first, with totals that cover their generations |
| WorkPlanProgress.CheckBlockers | apps/web/src/api/aiWorkPlan.ts:195-233 | the loop accepts exactly the lists of known, distinct blockers in rising priority with bounded totals and plan sources |
| WorkPlanProgress.ParseAiWorkPlanContinuation | apps/web/src/api/aiWorkPlan.ts:163-288 | a continuation is accepted exactly when ContinuationOk holds of it |
| WorkPlanProgress.ReadyLeavesChildAndRetained | apps/web/src/api/aiWorkPlan.ts:260-278 | an accepted ready continuation has nothing executing; what the summary counts as waiting is exactly active steps in child_pending_approval, what it counts as to recover exactly retained ones; it says awaiting continuation if and only if no active step is in either state |
| WorkPlanProgress.ReadyMayAwaitChildApproval | apps/web/src/api/aiWorkPlan.ts:260-278 | a concrete accepted ready continuation whose summary says it needs approval |
| WorkPlanProgress.ReadyMayHoldRetainedRun | apps/web/src/api/aiWorkPlan.ts:260-278 | a concrete accepted ready continuation whose summary says it needs recovery |
| WorkPlanProgress.CompleteReasonAgrees | apps/web/src/api/aiWorkPlan.ts:244-247 | plan_complete is accepted only with a summary that says completed, and plan_closed is the reason exactly of a plan with a closing date |
| AiStream.MatchIsSeparator | apps/web/src/api/ai.ts:164 | a match is exactly one of the four strings the separator stands for |
| AiStream.BoundaryIsStable | apps/web/src/api/ai.ts:164-168 | text added later never moves the leftmost separator found |
| AiStream.SplitIsIncremental | apps/web/src/api/ai.ts:163-168 | splitting a prefix and going on from what is left gives the split of the whole |
| AiStream.SplitIsLeftmost | apps/web/src/api/ai.ts:164-168 | the split joins back to the text, cuts at leftmost separators and leaves none in the tail |
| AiStream.SplitIsUnique | apps/web/src/api/ai.ts:164-168 | no other leftmost split of a text exists |
| AiStream.DeliverAppend | apps/web/src/api/ai.ts:169-181 | blocks after the end of a delivery change nothing; before it they extend it |
| AiStream.EndedDeliveryIsStable | apps/web/src/api/ai.ts:169-181 | once a terminal event or an error came, later text does not matter |
| AiStream.StreamAiChat | apps/web/src/api/ai.ts:156-188 | for every cut into chunks and every leftmost split of the concatenated text: the events forwarded are those of the blocks in order up to the first that is terminal or throws, and the answer is Incomplete exactly if no block is or does, whatever the tail holds |
| AiStream.ReadLoop | apps/web/src/api/ai.ts:156-188 | the nested loops deliver what the one-shot split of the whole text delivers |
| DesktopLog.DesktopLogger.constructor | apps/desktop/src-tauri/src/desktop_log.rs:89-103 | a logger opens a regular or missing current file and otherwise writes to stderr only |
| DesktopLog.DesktopLogger.Rename | apps/desktop/src-tauri/src/desktop_log.rs:194-199 | a rename is called only with a free target |
| DesktopLog.DesktopLogger.Shift | apps/desktop/src-tauri/src/desktop_log.rs:189-205 | the descending loop moves every file up by one slot, drops the oldest and touches nothing above, for any archive count including 0 |
| DesktopLog.DesktopLogger.RotateLog | apps/desktop/src-tauri/src/desktop_log.rs:184-211 | rotation succeeds exactly when no archive slot holds a non-regular file, and otherwise changes no file and closes the log |
| DesktopLog.DesktopLogger.Event | apps/desktop/src-tauri/src/desktop_log.rs:105-146 | one event moves the whole log state, with the lines written and the files written to, as Next allows |
| DesktopLog.RunRetainsSuffix | apps/desktop/src-tauri/src/desktop_log.rs:105-146 | in every run the archives from oldest to newest and the current file are a suffix of what was there at the start followed by everything written |
| DesktopLog.RunWritesAll | apps/desktop/src-tauri/src/desktop_log.rs:105-146 | with regular archive slots every event is written, in order |
| DesktopLog.RunKeepsFilesSmall | apps/desktop/src-tauri/src/desktop_log.rs:169-176 | every file that received a line in the run is regular, within the archives and at most max(max_bytes, longest line) bytes |
| DesktopLog.LinesGoWhereTheyFit | apps/desktop/src-tauri/src/desktop_log.rs:169-211 | a line goes into the current file exactly while that is empty or has room; otherwise every file moves up by one and only what the last archive held is lost |
| DesktopLog.RunFillsFiles | apps/desktop/src-tauri/src/desktop_log.rs:169-176 | in every run no file is started before the first line of it did not fit into the one before |
| DesktopLog.ClosesOnlyWhenBlocked | apps/desktop/src-tauri/src/desktop_log.rs:122-127 | the log falls back to stderr exactly when a line does not fit and an archive slot holds no regular file |
| WorkspaceTerminal.Output.constructor | apps/desktop/src-tauri/src/workspace_terminal.rs:16-21 | an empty ring |
| WorkspaceTerminal.Output.Append | apps/desktop/src-tauri/src/workspace_terminal.rs:23-29 | the ring stays the history from start on, which is its newest 1 MiB |
| WorkspaceTerminal.Output.Read | apps/desktop/src-tauri/src/workspace_terminal.rs:186-210 | what a read returns, stated over the whole history: at most 64 KiB from the requested offset clamped to what is held |
| WorkspaceTerminal.ReadsTileHistory | apps/desktop/src-tauri/src/workspace_terminal.rs:186-210 | for any interleaving of appends and reads that follow next_offset, the reads tile the history in order with a gap exactly in front of a read that reports dropped |
| WorkspaceTerminal.NothingDroppedNothingMissing | apps/desktop/src-tauri/src/workspace_terminal.rs:186-210 | with nothing dropped, the data joined is the history read so far, and all of it once a read returns nothing |
| WorkspaceTerminal.ReadAdvances | apps/desktop/src-tauri/src/workspace_terminal.rs:190-209 | a read before the end advances; dropped is reported exactly by a reader more than the ring size behind |
| WorkspaceTerminal.ReadsCover | apps/desktop/src-tauri/src/workspace_terminal.rs:190-209 | n reads without writes advance by n times 64 KiB or to the end |
| WorkspaceTerminal.SixteenReadsCatchUp | apps/desktop/src-tauri/src/workspace_terminal.rs:190-200 | sixteen reads reach the end from any offset |
| WorkspaceTerminal.FifteenReadsMayNot | apps/desktop/src-tauri/src/workspace_terminal.rs:190-200 | a full ring needs all sixteen |
| WorkspaceTerminal.EndedIsFinal | apps/desktop/src-tauri/src/workspace_terminal.rs:186-210 | a read reports ended exactly if the stream had ended, and then nothing is ever added; with no data it has read everything |
| WorkspaceTerminal.HistoryIsWritten | apps/desktop/src-tauri/src/workspace_terminal.rs:23-29 | the history is everything the shell wrote, in order |
| AiProgress.ParseInvertsEncode | apps/web/src/api/aiProgress.ts:77-186 | the step parser accepts exactly the encodings of well-formed steps and returns the step encoded; nothing is lost, defaulted or added |
| AiProgress.ParseAiRunProgressList | apps/web/src/api/aiProgress.ts:188-203 | a list is accepted exactly when every item parses and the steps are at most 63, numbered from 2, with only the last running or persisting |
| AiProgress.AppendAiRunProgress | apps/web/src/api/aiProgress.ts:205-233 | a live step completes the last one, follows it, or is refused |
| AiProgress.AppendKeepsListOk | apps/web/src/api/aiProgress.ts:205-233 | appending a parsed step to any list the validator accepts gives a list it accepts |
| AiProgress.FoldIsAccepted | apps/web/src/api/aiProgress.ts:188-233 | any accepted stream folds into a list the validator accepts |
| AiProgress.FoldOfListIsList | apps/web/src/api/aiProgress.ts:188-233 | the validator accepts a list of parsed steps exactly when streaming it gives that list back |
| AiProgress.FinishedStepsStay | apps/web/src/api/aiProgress.ts:213-225 | finished steps never change and no step disappears or changes kind or start |
| AiProgress.MeasureCounts | apps/web/src/api/aiProgress.ts:205-233 | the number of events is bounded by two per step, less one while the last runs |
| AiProgress.AcceptedStreamsAreShort | apps/web/src/api/aiProgress.ts:205-233 | an accepted stream has at most 126 events |
| AiProgress.BusyStreamIsAccepted | apps/web/src/api/aiProgress.ts:205-233 | the bound of 126 is reached |
| AiProgress.AcceptedStreamsAreExpansions | apps/web/src/api/aiProgress.ts:205-233 | a stream folds into a list exactly if it runs through that list in order, each step announced by at most one running step of the same kind, start, turn and tool, however it ends |
| BrowserTabs.BrowserState.constructor | apps/desktop/src-tauri/src/embedded_browser.rs:38-44 | no tab, no active tab, revision 0 |
| BrowserTabs.BrowserState.SnapshotMutation | apps/desktop/src-tauri/src/embedded_browser.rs:375-393 | the revision moves exactly when the snapshot differs |
| BrowserTabs.BrowserState.UpdateTab | apps/desktop/src-tauri/src/embedded_browser.rs:395-401 | only the first tab with the identity changes; a missing one changes nothing |
| BrowserTabs.BrowserState.OnNavigationStarting | apps/desktop/src-tauri/src/embedded_browser.rs:696-700 | a start records its identity, sets loading and clears the error |
| BrowserTabs.BrowserState.OnNavigationCompleted | apps/desktop/src-tauri/src/embedded_browser.rs:717-727 | a completion counts only for the navigation last started, and a cancelled one keeps the error |
| BrowserTabs.BrowserState.OnRefresh | apps/desktop/src-tauri/src/embedded_browser.rs:643-665 | address, title and history flags follow the page; an unreadable one is kept |
| BrowserTabs.BrowserState.OnProcessFailed | apps/desktop/src-tauri/src/embedded_browser.rs:772-775 | a failed process stops loading and sets the error |
| BrowserTabs.BrowserState.RequireTab | apps/desktop/src-tauri/src/embedded_browser.rs:429-441 | a command on a tab goes on exactly when the tab is open |
| BrowserTabs.BrowserState.SetActive | apps/desktop/src-tauri/src/embedded_browser.rs:503 | the active tab moves and the revision with it when it differs |
| BrowserTabs.BrowserState.PushTab | apps/desktop/src-tauri/src/embedded_browser.rs:902-912 | a new blank tab goes to the end |
| BrowserTabs.BrowserState.RemoveTab | apps/desktop/src-tauri/src/embedded_browser.rs:416-427 | a tab is taken out as RemovalPicksNeighbour describes |
| BrowserTabs.RemovalPicksNeighbour | apps/desktop/src-tauri/src/embedded_browser.rs:416-427 | removal takes out that tab only; if it was active the tab in its place, or the last one, becomes active |
| BrowserTabs.StepKeepsInv | apps/desktop/src-tauri/src/embedded_browser.rs:375-937 | every command step and native event keeps the tab invariant |
| BrowserTabs.TabsStayGood | apps/desktop/src-tauri/src/embedded_browser.rs:855-937 | under any interleaving there are at most twelve tabs, no identity twice, and the active one is a tab |
| BrowserTabs.RevisionIdentifiesSnapshot | apps/desktop/src-tauri/src/embedded_browser.rs:375-393 | in one run the revision never goes back, and two moments have the same revision exactly when the snapshot is the same |
| BrowserTabs.CaptureSawNoNavigation | apps/desktop/src-tauri/src/embedded_browser.rs:443-461 | a successful capture missed a navigation start of its tab between its checks if and only if the last start there carries the identity the first check saw; it missed none if and only if no start between reused that identity |
| BrowserTabs.RepeatedIdentityHidesNavigation | apps/desktop/src-tauri/src/embedded_browser.rs:34-36 | a concrete run: a navigation between the checks that reuses the identity goes unnoticed |
| BrowserTabs.FailedCreationMayMoveActive | apps/desktop/src-tauri/src/embedded_browser.rs:855-937 | in every run, whatever happens in between, a failed creation leaves the tabs as they were; the active tab stays if the new tab was not shown yet, and otherwise exactly if it was the last one |
| BrowserTabs.FailedCreationMovesActive | apps/desktop/src-tauri/src/embedded_browser.rs:914-936 | a concrete run: with two tabs and the first active, a failed creation leaves the second active |
| BrowserTabs.TabsShowTheirEvents | apps/desktop/src-tauri/src/embedded_browser.rs:639-777 | in every run each field of a tab is decided by the latest event that says something about it: loading, error, address, title and history flags |
| BrowserTabs.CapturesBegin | apps/desktop/src-tauri/src/embedded_browser.rs:443-461 | a capture begins exactly for the active tab, loaded and without error, at an allowed address |
| BrowserTabs.CapturesEnd | apps/desktop/src-tauri/src/embedded_browser.rs:34-36 | it succeeds exactly if that tab is still active, loaded and without error, at the same address and with the same navigation |
| BrowserTabs.CreationNeedsRoom | apps/desktop/src-tauri/src/embedded_browser.rs:863-867 | a tab may be created exactly while fewer than twelve are open |
| BrowserTabs.CreatedAppends | apps/desktop/src-tauri/src/embedded_browser.rs:902-929 | a creation that succeeds puts the new tab last and makes it active |
| BrowserTabs.ActivatedIsActive | apps/desktop/src-tauri/src/embedded_browser.rs:496-507 | activating an open tab makes it active and moves no tab |
| BrowserTabs.ClosedTabsAreGone | apps/desktop/src-tauri/src/embedded_browser.rs:509-520 | a closed tab is gone and the others stay; a view that does not close leaves everything |
| FileBaselines.FileSnapshotState.constructor | apps/desktop/src-tauri/src/workspace_file_snapshot.rs:67-68 | no baseline is held at first |
| FileBaselines.FileSnapshotState.Capture | apps/desktop/src-tauri/src/workspace_file_snapshot.rs:92-133 | a baseline is stored exactly for a valid path, fewer than eight live baselines and UTF-8 text without NUL, and holds the file as read |
| FileBaselines.FileSnapshotState.Validate | apps/desktop/src-tauri/src/workspace_file_snapshot.rs:135-161 | a gone, foreign, changed or unchanged baseline is told apart, and only a change or a failed read removes it |
| FileBaselines.FileSnapshotState.Release | apps/desktop/src-tauri/src/workspace_file_snapshot.rs:163-173 | a baseline is released only under its own root; releasing a missing one is accepted |
| FileBaselines.AtMostEight | apps/desktop/src-tauri/src/workspace_file_snapshot.rs:91-173 | never more than eight baselines, whatever the clock and the identities |
| FileBaselines.HeldComesFromCapture | apps/desktop/src-tauri/src/workspace_file_snapshot.rs:91-173 | every baseline held is what one accepted capture read, untouched since |
| FileBaselines.ValidateMeansUnchanged | apps/desktop/src-tauri/src/workspace_file_snapshot.rs:135-161 | validation succeeds exactly when a capture under this root made the identity less than ten minutes ago, it is still held, and identities, modified time and bytes equal those captured |
| FileBaselines.EndedStaysEnded | apps/desktop/src-tauri/src/workspace_file_snapshot.rs:154-161 | after a detected conflict, an expiry or a release every later validation of that identity fails, even if the old bytes return |
| FileBaselines.LivesUntilEnded | apps/desktop/src-tauri/src/workspace_file_snapshot.rs:91-173 | nothing else ends a baseline: not a wrong root, not other baselines |
| FileBaselines.OutcomesAreExact | apps/desktop/src-tauri/src/workspace_file_snapshot.rs:135-161 | when a validation answers gone, wrong root and conflict |
| FileBaselines.OnlyConflictsRemove | apps/desktop/src-tauri/src/workspace_file_snapshot.rs:135-161 | a validation removes what is ten minutes old and the baseline of a conflict, and nothing else |
| FileBaselines.CapturesAreStored | apps/desktop/src-tauri/src/workspace_file_snapshot.rs:92-133 | a capture stores the file as read exactly if the path is valid, fewer than eight baselines are fresh, and the file is text |
| RequestLifetime.Remaining | apps/desktop/src-tauri/src/file_operation_contract.rs:198-255 | inside an open window the unsigned difference never wraps, is never zero and never exceeds 600000; every millisecond subtraction on the clocks is this one |
| RequestLifetime.DeadlineIsBounded | apps/desktop/src-tauri/src/file_operation_contract.rs:211-226 | the monotonic deadline is fixed at creation, lies in the future and at most 600000 ms ahead |
| RequestLifetime.DeadlineNeverMoves | apps/desktop/src-tauri/src/file_operation_review.rs:62-166 | every owner the request passes through holds the request first checked, deadline included |
| RequestLifetime.SuccessNeedsBothClocks | apps/desktop/src-tauri/src/file_operation_contract.rs:227-243 | every success is before the monotonic deadline and inside the declared window by the wall clock |
| RequestLifetime.NothingSucceedsAfterTenMinutes | apps/desktop/src-tauri/src/file_operation_review.rs:62-166 | for any wall-clock readings, also ones that go back, everything that succeeds for a request, local or received, does so within what its window had left at creation and within ten minutes |
| RequestLifetime.WaitEndsByDeadline | apps/desktop/src-tauri/src/file_operation_contract.rs:245-255 | a granted wait ends at the earlier of the deadline and the declared expiry, after now and within ten minutes |
| RequestLifetime.RecheckExtendsOnlyIfWallLags | apps/desktop/src-tauri/src/file_operation_contract.rs:218-226 | decoding the same bytes again gives a later deadline exactly when the wall clock fell behind the monotonic one |
| RequestLifetime.EncodedRequestsDecode | apps/desktop/src-tauri/src/file_operation_contract.rs:218-236 | what one side encodes the other decodes exactly while its own wall clock is inside the declared window, to the same request and with its own deadline |
| RequestLifetime.ReviewShowsRequest | apps/desktop/src-tauri/src/file_operation_review.rs:62-126 | a review opens exactly when the request encodes and is still in time; it shows exactly the two contents of the request, and they differ |
| RequestLifetime.DecisionBindsDocument | apps/desktop/src-tauri/src/file_operation_review.rs:134-156 | a decision goes through exactly when it continues, in time, with the displayed digest and the selected root of this review; it is cancelled exactly when it cancels in time |
| RequestLifetime.DecisionsAreSingleUse | apps/desktop/src-tauri/src/file_operation_review.rs:130-156 | after a decision no document is shown and no decision goes through until another review is opened |
| RequestLifetime.TimeIsInOrder | apps/desktop/src-tauri/src/file_operation_contract.rs:239-244 | for a sound request time is in order exactly before the deadline and inside the declared window |
| RequestLifetime.WindowsMayBeTenMinutes | apps/desktop/src-tauri/src/file_operation_contract.rs:260-270 | a declared window may be up to 600000 ms long and no longer |
| RequestLifetime.LocalRequestsAreAccepted | apps/desktop/src-tauri/src/file_operation_contract.rs:211-217 | which local requests are accepted |
| RequestLifetime.ContentRoundTrips | apps/desktop/src-tauri/src/file_operation_contract.rs:100-126 | content made from bytes decodes to them, and content that decodes is what those bytes make |
| RequestLifetime.OperationsAreAccepted | apps/desktop/src-tauri/src/file_operation_contract.rs:274-317 | which operations are accepted once both contents decode |
| RequestLifetime.ReviewTellsDirection | apps/desktop/src-tauri/src/file_operation_review.rs:65-98 | what a review says is there, will be there and is kept, for each operation |
| RequestLifetime.ReadAndHandOffNeedTime | apps/desktop/src-tauri/src/file_operation_review.rs:127-166 | the document is read and the request handed on exactly while both clocks allow it, each as it was put in |

## Left out

- SidecarTheorems.Reachable: runs are shorter than 2^64 - 1 actions, so the two saturating counters never reach their maximum.
- SidecarTheorems.StatusIsCoherent: messages, startup stages and version strings of the status are not modelled.
- AiStream.StreamAiChat: the text is taken decoded and block parsing is a function from block to outcome; the UTF-8 decoder, the HTTP error path, aborts and exceptions thrown by the event handler are not modelled.
- WorkPlan.ParseAiWorkPlan: trimmed length bounds, known action names, parsable dates and workspace routes are given rules; JSON syntax is not modelled.
- WorkPlanProgress.ProgressPassesInbox: covers the counts, generation status and state of an inbox item; titles, dates, filters and page totals are not modelled.
- AiProgress.ParseInvertsEncode: the timestamp form and Date.parse are given rules; a value is a safe integer, a string, missing or anything else.
- DesktopLog.DesktopLogger.Event: I/O failures other than a non-regular file in an archive slot or at the current path are not modelled; the byte size of a file is that of its lines.
- DesktopLog.RunKeepsFilesSmall: bounds the size of a file; that a file holds whole lines is built into the model, where a file is a list of lines, and is not a proved property.
- WorkspaceTerminal.Output.Append: offsets are unbounded where the source uses 64-bit ones; Base64 and the process behind the terminal are not modelled.
- BrowserTabs.CaptureSawNoNavigation: the page script, its result and the native reads of the address are not modelled; whether an address may be captured is an input of each check.
- BrowserTabs.TabsStayGood: generated tab identities are taken as fresh, and revisions as unbounded.
- FileBaselines.ValidateMeansUnchanged: the disk read is an input of each call; generated identities do not repeat in a run, and recovery data of a baseline is not modelled.
- RequestLifetime.EncodedRequestsDecode: JSON encoding, SHA-256, Base64, UTF-8, identity and path rules are given functions; that this request's encoding decodes again is a premise.
- Real timers and fairness: timers may fire whenever their step is enabled, so only safety, counts and end states are claimed.
- The process spawn, the job object, the health request and the pipe to the service are outcomes chosen freely at their step.
- Native layout geometry, zoom, shortcuts, tray, file preview, Git and the React components.
- The flat proposal validators (invoice, finance, assignment, notes, output, family, export, automation retry): long conjunctions without interaction.
- The disk executor, the pipe transport and the helper launch of file operations.
