# AxonVex core: verified models

Dafny models of the concurrent protocols and the sequential cores of the AxonVex real-time
pipeline framework, with proofs about all their runs and inputs. Each file is one component:

| file | component |
|---|---|
| `SchedulerTasks.dfy`, `ReadySet.dfy` | the scheduler's task protocol: add, remove, update, select, claim, run, settle; the ready set of a cycle and the per-pick selectors |
| `WorkerLifecycle.dfy` | start, stop, halt, pause, resume and join of the scheduler's worker thread, and the wake-ups it gets |
| `MissionPipeline.dfy` | the mission graph executor with commands from any thread |
| `TcpFraming.dfy`, `TcpSender.dfy` | frame parsing over arbitrary chunks; concurrent senders |
| `Json.dfy`, `UnitParams.dfy`, `SpecModel.dfy`, `SpecValidator.dfy`, `LiveSystem.dfy`, `SpecLoader.dfy`, `SpecTheorems.dfy`, `SpecExamples.dfy` | the system spec: parameters, validation, loading with rollback, and what validation promises about loading |
| `SystemStates.dfy`, `Lifecycle.dfy` | the lifecycle state machine with emergency stops from any thread |
| `Teardown.dfy` | who tears down: the joins of stop, reset and emergency shutdown, and whether the scheduler is stopped |
| `ConfigMerge.dfy` | the configuration merge and its change log |
| `EventBus.dfy` | event pool, queue, dispatch, stop and drain |
| `SchedulerStatistics.dfy`, `TimerStatistics.dfy`, `SlidingWindow.dfy`, `MovingAverage.dfy` | running average, percentiles, ring buffers |
| `Wrappers.dfy`, `Arithmetic.dfy`, `Sorting.dfy` | what several of them share |

`dafny verify dfyconfig.toml` checks the whole project.

A concurrent protocol is a state, a set of atomic steps - one per region under a mutex, flag
access, clock reading, socket call or user hook - and a relation `Next`. A `Run` is any sequence
of states related by steps from an initial one, with any number of threads; the theorems are
about every state of every run. Where the program changes an object's fields, a class has those
fields and one method per locked region, proved equal to the function the relation uses.
History that the program does not keep - logs, traces, registration numbers - is recorded in the
model's state to be able to speak about the past.

## What the code does that one might not expect

These are facts about the code, each stated by a lemma in the table below.

- A stop of a paused scheduler can hang: the flags are changed and the condition variable is
  notified without `schedulerMutex_`, so a wake-up sent between the worker's test and its sleep
  is lost (`WorkerLifecycle.StopCanHang`; in a run, exactly when: `StopReturnsUnlessWakeUpLost`).
  Callers who never pause are safe, and only they (`CallersCanHangIffTheyPause`).
- The same race loses the wake-up of a `resume`: the worker sleeps on although the scheduler runs
  and is not paused (`WorkerLifecycle.ResumeCanBeLost`, `ResumeWakesUnlessWakeUpLost`).
- Task identifiers are 32-bit and are not checked for reuse: adding a task under an identifier
  still in use leaks the block it stood for (`SchedulerTasks.WrappedIdLeaks`). Memory is never
  freed twice or early even then.
- The wrapped counter also hands out 0, which reads as "no task left": a cycle ends at it, and the
  ready tasks behind it lose their turns (`SchedulerTasks.IdZeroEndsTheCycle`, `CycleTakesEveryTurn`).
- The comment in `timingController.cpp` line 609 says lower priority values are higher
  priorities; the enumeration counts the other way, so priority scheduling prefers `IDLE`: a ready
  `IDLE` task goes before a ready `CRITICAL` one (`ReadySet.IdleGoesBeforeCritical`), and a most
  important task is picked only if all ready tasks have one priority
  (`ReadySet.PickIsMostImportantIffOnePriority`).
- A spec that validates can still fail to load: with an empty system port name, with mission
  pipelines, without room or adapters - and it can throw past the rollback, because the
  down-sampling factor is cast to 32 bits after it was checked and `setDownSamplingFactor`
  throws outside the guarded part (`SpecTheorems.ValidSpecLoads`, `FactorSurvivesCast`,
  `ThrowLeavesUnits`, `SpecExamples.ValidSpecThrows`).
- A system port is assigned by port number, sync ports first, after the port was found by name:
  an async input that shares its number with a sync input is missed, and the sync input may get
  two sources (`SpecExamples.AsyncInputIsMissed`; exactly when, `SpecTheorems.NoInputGetsTwo` and
  `RequiredInputGetsOne`).
- Unregistering a unit drops the connections it holds, not those of other units to it
  (`LiveSystem.DanglesIffFedByOther`). A rollback may leave one dangling on its way, but not at its
  end (`LiveSystem.NothingLeft`).
- A publisher that passed the latch test before a stop can enqueue after the stop's drain; its
  block is then left allocated (`EventBus.LatePublisherLeaks`; exactly what is left,
  `LeftoverCameLate`).
- A latch set by an emergency stop may be cleared by an `initialize` under way; only the state
  test keeps its loops from running (`Lifecycle.LatchAloneIsNotEnough`).
- An emergency stop may leave the scheduler running: a start let in before it can raise the
  scheduler after it was stopped, and if that start then fails nobody stops it
  (`Teardown.FailedStartLeavesItUp`). Besides, an emergency shutdown that finds the teardown mutex
  taken by one that has survived a reset leaves the teardown to it although it is past stopping
  the scheduler (`SkippedTeardownLeavesItUp`). Without a reset in the middle of an emergency
  shutdown only the first can happen (`UpUnderFatalIffStartFailed`; in general, `UpUnderFatalIff`).
- Reported configuration keys are ambiguous when a key contains a dot or is empty
  (`ConfigMerge.DottedKeyLeadsBack`).
- A failure before the first success drags the average execution time below the minimum
  (`SchedulerStatistics.AverageBetweenExtremes`).
- The round-robin ready set starts from the beginning, not after the cursor, when the cursor's
  task is registered, not ready, and has ready tasks on both sides
  (`ReadySet.RoundRobinHeadMatchesPick`, `CursorTaskNotReady`).

## Model

| member | source | states |
|---|---|---|
| `SchedulerTasks.BlocksAreSafe` | src/libs/axonvex_core/src/timingController.cpp:91-123 | in every interleaving of the API calls with the scheduler: no dangling pointer; every block lives by Alloc (Begin Start Finish)* Dealloc, so it is freed once, never while executing, never handed out while allocated; `executing` marks exactly the block the scheduler works on |
| `SchedulerTasks.ExecutionsKeepTheirDistance` | src/libs/axonvex_core/src/timingController.cpp:867-918 | over every run: a policy-selected execution starts at least the period in force at its selection after the start of the last success; after a full streak of failures none starts, however selected, before the 100 ms back-off is over |
| `SchedulerTasks.InactiveMeansFailing` | src/libs/axonvex_core/src/timingController.cpp:897-908 | a registered task is inactive exactly while its failure count is at the limit, and its history then ends in a full streak |
| `SchedulerTasks.TurnsFollowTheReadySet` | src/libs/axonvex_core/src/timingController.cpp:521-542 | at any point of a cycle the turns taken and the turns left are together the chosen ready set, in its order, without repeats |
| `SchedulerTasks.CycleTakesEveryTurn` | src/libs/axonvex_core/src/timingController.cpp:521-531 | a cycle that ends with `running_` up has taken the turn of every entry of its ready set if and only if none has identifier 0; otherwise it stopped right before that one; below 2^32 registrations there is none |
| `SchedulerTasks.ReadyTasksRunOnce` | src/libs/axonvex_core/src/timingController.cpp:533-556 | in every cycle the tasks run since the selection are exactly those claimed in their turns, in order, each once |
| `SchedulerTasks.HaltLetsOneTurnPass` | src/libs/axonvex_core/src/timingController.cpp:521-521 | once `running_` is down at most one more turn is taken, one that had passed the loop's test |
| `SchedulerTasks.IdZeroEndsTheCycle` | src/libs/axonvex_core/src/timingController.cpp:529-531 | a run in which a cycle ends with `running_` up, no turn taken, and both tasks of its ready set still ready |
| `SchedulerTasks.NoIdZeroBeforeWrap` | src/libs/axonvex_core/src/timingController.cpp:73-73 | up to 2^32 registrations no registered identifier is 0 |
| `SchedulerTasks.TurnRunsIfRegisteredAndActive` | src/libs/axonvex_core/src/timingController.cpp:529-542 | a turn claims its task if and only if its identifier is not 0 and it is still registered and active; the executing test never decides; identifier 0 ends the cycle |
| `SchedulerTasks.AllocatedBlocks` | src/libs/axonvex_core/src/timingController.cpp:533-581 | without leaks the allocated blocks are the values of the task map and at most one orphan, executing and due for removal |
| `SchedulerTasks.AccountedIffNoIdReused` | src/libs/axonvex_core/src/timingController.cpp:73-83 | in every run the allocated blocks are all accounted for if and only if no task was added under an identifier still in use |
| `SchedulerTasks.NoIdReusedBeforeWrap` | src/libs/axonvex_core/src/timingController.cpp:73-73 | below 2^32 registrations the next identifier is never in use |
| `SchedulerTasks.WrappedIdLeaks` | src/libs/axonvex_core/src/timingController.cpp:73-81 | a run of 2^32 + 1 registrations that ends with an allocated block nobody will ever free |
| `SchedulerTasks.NextLeaks` | src/libs/axonvex_core/src/timingController.cpp:55-123 | the exact effect of every step on every block: only an addition under an identifier in use leaks, and it leaks the block that identifier stood for |
| `SchedulerTasks.NextKeepsInv` | src/libs/axonvex_core/src/timingController.cpp:439-590 | the invariant behind the run theorems is kept by every kind of step |
| `SchedulerTasks.TraversalFindsReadySet` | src/libs/axonvex_core/src/timingController.cpp:704-731 | a traversal in any order yields exactly the ready tasks, each once, with the period in force |
| `SchedulerTasks.RealTimeScheduler.AddTask` | src/libs/axonvex_core/src/timingController.cpp:55-89 | the whole new table when a block is free; otherwise nothing changes and the identifier is 0 |
| `SchedulerTasks.RealTimeScheduler.RemoveTask` | src/libs/axonvex_core/src/timingController.cpp:91-108 | frees the block now, or marks it for the scheduler if it is executing |
| `SchedulerTasks.RealTimeScheduler.RemoveAllTasks` | src/libs/axonvex_core/src/timingController.cpp:110-123 | the loop over the map equals removing the tasks one by one, in the order it met them |
| `SchedulerTasks.RealTimeScheduler.UpdateTaskConstraints` | src/libs/axonvex_core/src/timingController.cpp:125-136 | new constraints, and the next execution recomputed from the last one |
| `SchedulerTasks.RealTimeScheduler.SelectReadyTasksForCycle` | src/libs/axonvex_core/src/timingController.cpp:704-789 | one traversal reactivates and collects; the result is exactly the ready set after reactivation, in an order the policy allows, with the round-robin cursor moved to its end |
| `SchedulerTasks.RealTimeScheduler.ClaimTask` | src/libs/axonvex_core/src/timingController.cpp:533-542 | claims a registered, active, idle task and nothing else |
| `SchedulerTasks.RealTimeScheduler.FinalizeTaskExecution` | src/libs/axonvex_core/src/timingController.cpp:867-930 | bookkeeping, release of the claim, and the deferred free, for successes and failures |
| `ReadySet.ReadySetIsExact` | src/libs/axonvex_core/src/timingController.cpp:704-789 | the cycle list holds the id of every ready task, no other, none twice, whatever the policy |
| `ReadySet.HeadMatchesPick` | src/libs/axonvex_core/src/timingController.cpp:593-670 | the head of the cycle list has the key of the per-pick choice, if and only if that key is below the largest representable value; otherwise the per-pick selector finds nothing |
| `ReadySet.RoundRobinHeadMatchesPick` | src/libs/axonvex_core/src/timingController.cpp:672-702 | for round robin the same task comes first, if and only if the cursor task is not (registered, not ready, and with ready tasks before and after it) |
| `ReadySet.CursorTaskNotReady` | src/libs/axonvex_core/src/timingController.cpp:680-702 | three tasks with the cursor on the middle one, not ready: the search picks the third, the cycle starts with the first |
| `ReadySet.PickIsMostImportantIffOnePriority` | src/libs/axonvex_core/src/timingController.cpp:608-614 | the priority selector picks a task of the highest priority among the ready ones if and only if they all have one priority |
| `ReadySet.CycleStartsWithMostImportantIffOnePriority` | src/libs/axonvex_core/src/timingController.cpp:739-743 | the same for the head of the cycle list; its last task is always a most important one |
| `ReadySet.IdleGoesBeforeCritical` | src/libs/axonvex_core/include/axonvex_core/timingController.hpp:29-36 | a ready `IDLE` task and a ready `CRITICAL` one, met in either order: the selector picks the idle one and the cycle runs it first |
| `ReadySet.OrderCandidates` | src/libs/axonvex_core/src/timingController.cpp:735-789 | sorting gives a key-sorted permutation, round robin the rotation past the cursor; the cursor moves to the last entry |
| `ReadySet.SchedulePriorityBased` | src/libs/axonvex_core/src/timingController.cpp:593-619 | the first ready task of least raw priority value, or 0 |
| `ReadySet.ScheduleEarliestDeadlineFirst` | src/libs/axonvex_core/src/timingController.cpp:621-645 | the first ready task of earliest deadline below the largest time, or 0 |
| `ReadySet.ScheduleRateMonotonic` | src/libs/axonvex_core/src/timingController.cpp:647-670 | the first ready task of shortest period below the largest duration, or 0 |
| `ReadySet.ScheduleRoundRobin` | src/libs/axonvex_core/src/timingController.cpp:672-702 | the first ready task after the cursor, wrapping round; the cursor follows it |
| `WorkerLifecycle.RunIsSafe` | src/libs/axonvex_core/src/workerThread.cpp:64-127 | in every run of any number of threads: no self-join, no joinable handle overwritten, at most one live loop and the handle is its own, the published id empty or the live worker's |
| `WorkerLifecycle.RunningIsRaisedAfterJoin` | src/libs/axonvex_core/src/workerThread.cpp:80-98 | `running_` is raised only when no loop is alive and no handle is left to join |
| `WorkerLifecycle.NoWaitCycle` | src/libs/axonvex_core/src/timingController.cpp:165-258 | no chain of waiting threads, of any length, closes |
| `WorkerLifecycle.WorkerIsNeverBlocked` | src/libs/axonvex_core/src/workerThread.cpp:101-127 | the worker, inside any control call, is never blocked on a mutex or a join |
| `WorkerLifecycle.SomebodyMoves` | src/libs/axonvex_core/src/workerThread.cpp:64-127 | whatever call a thread is stuck in, some thread can move, or the worker is asleep |
| `WorkerLifecycle.StopWaitsForBoundedWork` | src/libs/axonvex_core/src/timingController.cpp:250-259 | while a stop waits at its join `running_` stays down and the worker makes at most a bounded number of statements, fixed when the wait began |
| `WorkerLifecycle.StopReturnsUnlessWakeUpLost` | src/libs/axonvex_core/src/timingController.cpp:250-259 | from the last wake-up of a stop to every later state at its join: blocked if and only if the worker was between its test and its sleep at that wake-up and nobody woke it since; otherwise the join is free or the worker can move, and free after the statements it had left |
| `WorkerLifecycle.StopReturnsWithoutPause` | src/libs/axonvex_core/src/timingController.cpp:288-290 | in a run in which nobody called pause every stop, and every start that joins a stale loop, returns |
| `WorkerLifecycle.CallersCanHangIffTheyPause` | src/libs/axonvex_core/src/timingController.cpp:456-467 | callers who start and stop have a run that ends hung if and only if pause is among their calls |
| `WorkerLifecycle.StaleJoinEndsUnlessDrowsy` | src/libs/axonvex_core/src/workerThread.cpp:80-86 | a start at the join of a stale loop is blocked exactly while that loop's thread sleeps unwoken |
| `WorkerLifecycle.ResumeWakesUnlessWakeUpLost` | src/libs/axonvex_core/src/timingController.cpp:292-295 | after a resume, without a further pause, the worker sleeps on if and only if the wake-up came between its test and its sleep, and nobody woke it since |
| `WorkerLifecycle.ResumeCanBeLost` | src/libs/axonvex_core/src/timingController.cpp:292-295 | a run that ends with the scheduler running, not paused, nobody in a call, and the worker asleep |
| `WorkerLifecycle.WakeUpIsLostIffFallingAsleep` | src/libs/axonvex_core/src/timingController.cpp:456-464 | any wake-up, by stop, halt, resume or addTask, leaves the worker asleep in a later state if and only if it came between the worker's test of its condition and its sleep, and no other found it asleep since |
| `WorkerLifecycle.StopCanHang` | src/libs/axonvex_core/src/timingController.cpp:456-467 | a concrete run in which stopping a paused scheduler hangs: nobody can move |
| `MissionPipeline.HooksFollowTheGraph` | src/libs/axonvex_core/include/axonvex_core/missionPipeline.hpp:254-397 | in every interleaving of commands with ticks: hooks form blocks Enter Execute* Exit along first-matching transitions, resets fall between blocks, and an element is current exactly while the mission is executing or paused |
| `MissionPipeline.EntriesFormAWalk` | src/libs/axonvex_core/include/axonvex_core/missionPipeline.hpp:297-345 | an entered element is the start element of a start just made, or the first matching successor of the element just left |
| `MissionPipeline.InsideMeansEntered` | src/libs/axonvex_core/include/axonvex_core/missionPipeline.hpp:464-516 | whoever is executed or left was entered before, with nothing but its own executions in between |
| `MissionPipeline.TraceTellsCurrentElement` | src/libs/axonvex_core/include/axonvex_core/missionPipeline.hpp:354-381 | between ticks the hooks called so far end inside the current element, or outside all |
| `MissionPipeline.RecheckNeverFails` | src/libs/axonvex_core/include/axonvex_core/missionPipeline.hpp:277-343 | the test made after the unlocked execute() always finds the element current and the mission executing |
| `MissionPipeline.ExecutesOnlyWhileExecuting` | src/libs/axonvex_core/include/axonvex_core/missionPipeline.hpp:254-270 | only the current element of an executing mission is executed, never while the mission is paused |
| `MissionPipeline.RestartResetsEverything` | src/libs/axonvex_core/include/axonvex_core/missionPipeline.hpp:518-535 | a restart starts again only once every element was reset since the last other hook |
| `MissionPipeline.ResetCancelsStart` | src/libs/axonvex_core/include/axonvex_core/missionPipeline.hpp:551-576 | a drained reset cancels a start requested before it |
| `MissionPipeline.NextKeepsInv` | src/libs/axonvex_core/include/axonvex_core/missionPipeline.hpp:464-576 | kept by every statement of the tick thread and every step of the others |
| `MissionPipeline.OthersKeepInv` | src/libs/axonvex_core/include/axonvex_core/missionPipeline.hpp:167-208 | what other threads do never changes the board of a live mission |
| `MissionPipeline.Pipeline.AddElement` | src/libs/axonvex_core/include/axonvex_core/missionPipeline.hpp:85-91 | the first element added becomes the start element |
| `MissionPipeline.Pipeline.ValidateGraph` | src/libs/axonvex_core/include/axonvex_core/missionPipeline.hpp:425-447 | accepts exactly the graphs whose start, sources and targets all exist |
| `MissionPipeline.Pipeline.StartPipeline` | src/libs/axonvex_core/include/axonvex_core/missionPipeline.hpp:167-184 | only an idle mission: armed if the graph is valid, failed if not |
| `MissionPipeline.Pipeline.StartImmediately` | src/libs/axonvex_core/include/axonvex_core/missionPipeline.hpp:464-487 | the idle mission becomes executing at the start element, or failed |
| `MissionPipeline.Pipeline.FindSuccessor` | src/libs/axonvex_core/include/axonvex_core/missionPipeline.hpp:297-312 | the target of the first transition with the result, if it exists |
| `MissionPipeline.Pipeline.ApplyResult` | src/libs/axonvex_core/include/axonvex_core/missionPipeline.hpp:277-343 | failed, finished or moved on, if the element is still current; otherwise untouched |
| `MissionPipeline.Pipeline.AbortMission` | src/libs/axonvex_core/include/axonvex_core/missionPipeline.hpp:504-516 | a live mission becomes aborted and its element is to be left; any other is untouched |
| `TcpFraming.ParseInvertsEncode` | src/libs/axonvex_net/src/tcpClient.cpp:227-240 | any concatenation of encoded payloads parses to exactly those payloads, nothing left over |
| `TcpFraming.ParseIsFaithful` | src/libs/axonvex_net/src/tcpClient.cpp:495-537 | any stream is the encoding of the frames read from it followed by the unread rest |
| `TcpFraming.ParseExtends` | src/libs/axonvex_net/src/tcpClient.cpp:480-552 | reading a longer stream continues the reading of its prefix from the rest alone; a violation is final |
| `TcpFraming.CleanIffFramesThenPartial` | src/libs/axonvex_net/src/tcpClient.cpp:495-537 | a stream is read without violation if and only if it is whole frames followed by a partial one, and then those frames are delivered |
| `TcpFraming.RestIsShort` | src/libs/axonvex_net/src/tcpClient.cpp:515-531 | the rest never holds a whole frame, and on a clean stream is shorter than a header plus the longest frame |
| `TcpFraming.EncodingIsInjective` | src/libs/axonvex_net/src/tcpClient.cpp:227-240 | different payload lists never share an encoding |
| `TcpFraming.ReceiveLoop` | src/libs/axonvex_net/src/tcpClient.cpp:436-554 | for every chunking, timeout, error and stop: an unstopped loop delivers exactly what the one-shot parser finds in the concatenated stream, a stopped one a prefix of it |
| `TcpFraming.DrainBuffer` | src/libs/axonvex_net/src/tcpClient.cpp:487-540 | the inner loop over one buffer, with the flags re-read before every frame |
| `TcpFraming.LengthRoundTrip` | src/libs/axonvex_net/src/tcpClient.cpp:228-233 | the four big-endian length bytes read back as the length |
| `TcpSender.SendAll` | src/libs/axonvex_net/src/tcpClient.cpp:406-424 | for all short counts, interrupts and errors: what is put is a prefix, success means all of it |
| `TcpSender.WireIsWholeFramesThenCut` | src/libs/axonvex_net/src/tcpClient.cpp:189-262 | in every run with any number of senders each connection carries whole encoded frames and then at most a strict beginning of one; a peer reads exactly the completed payloads and sees no violation |
| `TcpSender.MessagesSentCountsWholeFrames` | src/libs/axonvex_net/src/tcpClient.cpp:251-255 | whenever no sender holds the mutex the counter is the number of whole frames put on all connections |
| `TcpSender.NothingAfterCut` | src/libs/axonvex_net/src/tcpClient.cpp:426-434 | a connection that ends in an abandoned cut frame never gets another byte |
| `TcpSender.CutIsDown` | src/libs/axonvex_net/src/tcpClient.cpp:426-434 | an abandoned cut frame stands only on a connection that was shut down |
| `UnitParams.ValidateParams` | src/libs/axonvex_core/src/unitMetadata.cpp:129-177 | reports every issue there is and no other |
| `UnitParams.ParamsOkMeans` | src/libs/axonvex_core/src/unitMetadata.cpp:129-177 | parameters pass exactly if absent or an object with only described keys, the required ones present, all well typed and in range |
| `UnitParams.ConstraintsSatisfied` | src/libs/axonvex_core/src/unitMetadata.cpp:61-96 | listed enum values and numeric bounds; malformed constraints count as none |
| `SpecModel.JoinedRefSplits` | src/libs/axonvex_core/src/systemSpec.cpp:81-93 | a valid reference splits back into the unit and port it was joined from |
| `SpecModel.ValidRefsAreDistinct` | src/libs/axonvex_core/src/systemSpec.cpp:81-93 | different valid references name different ports |
| `SpecValidator.Validate` | src/libs/axonvex_core/src/systemSpec.cpp:742-887 | returns true, with no errors, exactly for the valid specs |
| `SpecValidator.ValidateConnections` | src/libs/axonvex_core/src/systemSpec.cpp:800-831 | no errors exactly if every connection resolves, matches in direction, kind and type, and no input is wired twice; then the wired set is exact |
| `SpecValidator.ValidateInputs` | src/libs/axonvex_core/src/systemSpec.cpp:833-845 | the same for system inputs, against everything wired before |
| `SpecValidator.ValidateRequired` | src/libs/axonvex_core/src/systemSpec.cpp:855-871 | no errors exactly if every required input is wired |
| `LiveSystem.UnregisterShrinks` | src/libs/axonvex_core/src/system.cpp:1513-1545 | unregistering one new unit takes away exactly it, its connections and its system ports, and keeps the registry maps inverse |
| `LiveSystem.NothingLeft` | src/libs/axonvex_core/src/systemSpec.cpp:934-941 | after the last new unit the system is the old one but for the number counter, and nothing dangles that did not before |
| `LiveSystem.DanglesIffFedByOther` | src/libs/axonvex_core/src/system.cpp:1513-1562 | after unregistering a unit a connection to it survives if and only if some other unit was connected to it |
| `LiveSystem.LoadDoesNotDangle` | src/libs/axonvex_core/src/systemSpec.cpp:1001-1015 | however far a load gets, its connections end at registered units |
| `LiveSystem.RegisterGrows` | src/libs/axonvex_core/src/unitRegistry.cpp:25-61 | registering adds one unit and keeps the registry maps inverse |
| `SpecLoader.SpecSystem.RegisterProcessingUnit` | src/libs/axonvex_core/src/unitRegistry.cpp:25-61 | a full registry or a throwing hook leaves nothing but a used-up number |
| `SpecLoader.SpecSystem.UnregisterProcessingUnit` | src/libs/axonvex_core/src/system.cpp:1513-1567 | removes the unit, its connections and its system ports |
| `SpecLoader.SpecSystem.RollbackRegisteredUnits` | src/libs/axonvex_core/src/systemSpec.cpp:934-941 | after the rollback units, connections, system ports and the active count are those of before |
| `SpecLoader.SpecSystem.InitializeBlocksLayout` | src/libs/axonvex_core/src/systemSpec.cpp:907-1048 | loads exactly the loadable specs; a refused load restores everything; it throws exactly when a unit reached has a down-sampling factor below 1, and then the units before it stay registered |
| `SpecLoader.SpecSystem.AssignSystemInputPort` | src/libs/axonvex_core/src/system.cpp:819-867 | assigned exactly if named, registered, not taken, and a port of that number exists, sync before async |
| `SpecTheorems.ValidSpecLoads` | src/libs/axonvex_core/src/systemSpec.cpp:907-1048 | a parsed, validated spec with units as described loads if and only if: no mission pipelines, factors positive after the cast, room for the units, adapters injected, system port names not empty and not taken |
| `SpecTheorems.ResolvesTheSame` | src/libs/axonvex_core/src/systemSpec.cpp:101-140 | a reference the validator resolves is resolved by the loader to a port with the same number, direction, kind and type |
| `SpecTheorems.NoInputGetsTwo` | src/libs/axonvex_core/src/systemSpec.cpp:797-845 | a valid spec gives no live input two sources, if and only if no system input naming an async input is diverted by its number to a sync input that is wired as well |
| `SpecTheorems.RequiredInputGetsOne` | src/libs/axonvex_core/src/systemSpec.cpp:855-871 | a required input gets a source if and only if it is wired by a connection or no sync input of its unit has its number; exactly one source when no system input is so diverted |
| `SpecTheorems.AssignedByNumber` | src/libs/axonvex_core/src/system.cpp:839-851 | a system port ends at the port its reference names exactly if that is a sync port or no sync port of its direction shares its number |
| `SpecTheorems.AssignedUnlessShadowed` | src/libs/axonvex_core/src/system.cpp:839-851 | a system input of a valid spec ends at the port it names, or at the sync input with that number |
| `SpecExamples.AsyncInputIsMissed` | src/libs/axonvex_core/src/system.cpp:839-851 | a parsed, valid spec with both inputs of a unit as system inputs: the sync one gets two sources, the required async one none |
| `SpecTheorems.FactorSurvivesCast` | src/libs/axonvex_core/src/systemSpec.cpp:347-354 | which positive factors of a document stay positive in 32 bits; 2^32 does not |
| `SpecTheorems.ThrowLeavesUnits` | src/libs/axonvex_core/src/systemSpec.cpp:964-967 | a load that throws leaves the system as it was only if the first unit threw |
| `SpecExamples.ValidSpecThrows` | src/libs/axonvex_core/src/systemSpec.cpp:964-967 | a parsed, valid spec whose load throws at its second unit, with the first left registered |
| `Lifecycle.LifecycleController.Transition` | src/libs/axonvex_core/src/lifecycleController.cpp:16-90 | the transition table, the fatal state reachable from everywhere |
| `Lifecycle.LifecycleController.ShutdownRequested` | src/libs/axonvex_core/src/lifecycleController.cpp:108-110 | the latch, or one of the four states from stopping on |
| `Lifecycle.EmergencyStopStores` | src/libs/axonvex_core/src/system.cpp:555-560 | an emergency stop is never refused |
| `Lifecycle.FatalSticks` | src/libs/axonvex_core/src/lifecycleController.cpp:16-90 | with any calls going on, the fatal state stays until a reset requests the uninitialized one |
| `Lifecycle.LateCallsFail` | src/libs/axonvex_core/src/system.cpp:250-553 | a call about to return true under an emergency stop had made its last transition before it |
| `Lifecycle.LastTransitionRefused` | src/libs/axonvex_core/src/system.cpp:355-359 | a last transition made under an emergency stop makes its call return false |
| `Lifecycle.NoFurtherIterations` | src/libs/axonvex_core/src/eventBus.cpp:131-131 | under an emergency stop no worker loop, running or started later, is admitted to another iteration, even after initialize cleared the latch |
| `Lifecycle.LoopsEnd` | src/libs/axonvex_core/src/healthMonitor.cpp:181-181 | four steps of its own end any loop, and no other step sets it back |
| `Lifecycle.LatchAloneIsNotEnough` | src/libs/axonvex_core/src/system.cpp:325-345 | a run in which the latch set by an emergency stop is cleared and a loop started after it finds flag and latch in its favour: only the state stops it |
| `Teardown.UpUnderFatalIff` | src/libs/axonvex_core/src/system.cpp:555-604 | over every run: with all calls returned under the fatal state, the scheduler is up if and only if a start raised it after it had been stopped and then failed, or nobody stopped it since the fatal state was stored |
| `Teardown.UpUnderFatalIffStartFailed` | src/libs/axonvex_core/src/system.cpp:555-604 | the second case is out when no reset makes its transition in the middle of another thread's emergency shutdown: up if and only if such a start failed |
| `Teardown.FailedStartLeavesItUp` | src/libs/axonvex_core/src/system.cpp:389-394 | a run that ends with all calls returned under the fatal state, the scheduler's thread alive and its flag up: a start raised it after the emergency stop and failed before its last transition |
| `Teardown.SkippedTeardownLeavesItUp` | src/libs/axonvex_core/src/system.cpp:569-572 | such a run without a failed start: an emergency shutdown outlasts a reset, and the next one leaves the teardown to it |
| `Teardown.OneInSection` | src/libs/axonvex_core/src/system.cpp:510-538 | in every state of every run at most one thread is in the section of stop and emergency shutdown that joins the worker threads |
| `Teardown.JoinedWorkerReturns` | src/libs/axonvex_core/src/system.cpp:564-572 | a worker being joined from that section is never blocked, and an emergency shutdown of its own finds the token taken and returns |
| `Teardown.NoWaitCycle` | src/libs/axonvex_core/src/system.cpp:500-605 | no chain of threads waiting for the teardown mutex, the scheduler's lifecycle mutex or a join closes, whatever its length |
| `Teardown.BlockedWaits` | src/libs/axonvex_core/src/system.cpp:564-605 | in every run a thread that cannot go on waits for one definite other thread, never for itself |
| `ConfigMerge.LeavesAreSet` | src/libs/axonvex_core/src/configuration.cpp:343-366 | every leaf of the update is set, at any depth |
| `ConfigMerge.UntouchedIsKept` | src/libs/axonvex_core/src/configuration.cpp:343-366 | whatever the update says nothing about stays, values and absences |
| `ConfigMerge.MergeIsIdempotent` | src/libs/axonvex_core/src/configuration.cpp:343-366 | applying an update twice is applying it once |
| `ConfigMerge.Merge` | src/libs/axonvex_core/src/configuration.cpp:343-366 | replaying the recorded changes on the old tree gives the new one; each records the old value and the update's value at its path |
| `ConfigMerge.Configuration.ApplyUpdates` | src/libs/axonvex_core/src/configuration.cpp:325-376 | the same for any root, including the updates that are refused or do nothing |
| `ConfigMerge.SplitKey` | src/libs/axonvex_core/src/configuration.cpp:544-556 | the non-empty parts between dots |
| `ConfigMerge.DottedKeyLeadsBack` | src/libs/axonvex_core/src/configuration.cpp:348-348 | a reported key leads back to where the change happened if and only if no key on the way is empty or contains a dot |
| `ConfigMerge.CleanKeysReplay` | src/libs/axonvex_core/src/configuration.cpp:348-374 | with such keys the reported keys and values rebuild the new tree |
| `ConfigMerge.DottedNameMisleads` | src/libs/axonvex_core/src/configuration.cpp:348-361 | a concrete update whose reported key rebuilds a different tree |
| `EventBus.EveryBlockHasOneHolder` | src/libs/axonvex_core/src/eventBus.cpp:19-50 | a block is allocated exactly while one thread has it in hand or it stands in the queue, once |
| `EventBus.EventsLeaveInOrder` | src/libs/axonvex_core/src/eventBus.cpp:126-163 | accepted events are distinct and leave in FIFO order; those taken by the dispatcher are delivered once, in that order |
| `EventBus.DrainFreesPool` | src/libs/axonvex_core/src/eventBus.cpp:107-120 | once the dispatch thread has ended, after a drain that found the queue empty, with the latch set and no publisher left from before it: in every later state the queue is empty, every accepted event was delivered or drained, and the pool is free if and only if no other drain has a block in hand |
| `EventBus.StopJoinDrainFreesPool` | src/libs/axonvex_core/src/eventBus.cpp:98-120 | right when the drain of such a stop, after its join, returns, nobody else draining, the pool is entirely free |
| `EventBus.NothingEnqueued` | src/libs/axonvex_core/src/eventBus.cpp:24-28 | with the latch set and nobody past its test, no event is ever accepted and the queue only loses its front |
| `EventBus.LeftoverCameLate` | src/libs/axonvex_core/src/eventBus.cpp:26-33 | the queue after a drain holds exactly the events accepted since, none unless a publisher was past the latch test when the drain ended; at rest the pool is free if and only if there are none |
| `EventBus.LatePublisherLeaks` | src/libs/axonvex_core/src/eventBus.cpp:26-33 | a run with a complete stop, join and drain after which, everybody at rest, a block is allocated and queued |
| `EventBus.QuietMeansFree` | src/libs/axonvex_core/src/eventBus.cpp:98-120 | whenever nobody is publishing or consuming and the queue is empty, the pool is free and every accepted event was delivered or drained |
| `EventBus.FreeStaysFree` | src/libs/axonvex_core/src/eventBus.cpp:24-28 | and with the latch set it stays so |
| `EventBus.Bus.Publish` | src/libs/axonvex_core/src/eventBus.cpp:19-50 | accepted exactly with the latch clear, room in the queue and a free block; otherwise no trace |
| `EventBus.Bus.Drain` | src/libs/axonvex_core/src/eventBus.cpp:107-120 | returns every queued event to the pool, in order |
| `SchedulerStatistics.Statistics.UpdateGlobalStatistics` | src/libs/axonvex_core/src/timingController.cpp:942-986 | the running statistics after one more execution |
| `SchedulerStatistics.AverageDrift` | src/libs/axonvex_core/src/timingController.cpp:951-966 | for every history the rounding loss of the average is between 0 and n(n-1)/2 over n executions, a failed one counting at the average then standing |
| `SchedulerStatistics.SuccessfulAverageDrift` | src/libs/axonvex_core/src/timingController.cpp:951-966 | for n successes with total S: S/n - (n-1)/2 <= average <= S/n |
| `SchedulerStatistics.AverageBetweenExtremes` | src/libs/axonvex_core/src/timingController.cpp:954-978 | the average lies between minimum and maximum at every moment if and only if the first execution succeeded or the first success took no time |
| `SchedulerStatistics.FailureDragsAverageDown` | src/libs/axonvex_core/src/timingController.cpp:954-978 | the shortest history with the average below the minimum |
| `TimerStatistics.PercentileMonotone` | src/libs/axonvex_core/src/precisionTimer.cpp:252-282 | percentiles never fall as the fraction rises |
| `TimerStatistics.Bracketed` | src/libs/axonvex_core/src/precisionTimer.cpp:264-280 | interpolation stays between its two samples |
| `TimerStatistics.PercentileHitsSamples` | src/libs/axonvex_core/src/precisionTimer.cpp:264-280 | the fraction k/(n-1) gives sample k |
| `TimerStatistics.PercentileInRange` | src/libs/axonvex_core/src/precisionTimer.cpp:252-282 | every percentile lies between the least and the largest sample |
| `TimerStatistics.PrecisionTimer.AddSample` | src/libs/axonvex_core/src/precisionTimer.cpp:236-250 | the ring holds the window of the history after every sample |
| `TimerStatistics.PrecisionTimer.KeepsTheLastSamples` | src/libs/axonvex_core/src/precisionTimer.cpp:236-250 | the samples kept are, as a multiset, the last ones that fit |
| `TimerStatistics.PrecisionTimer.GetStatistics` | src/libs/axonvex_core/src/precisionTimer.cpp:151-177 | least <= median <= largest and least <= mean <= largest of exactly the last samples, or nothing without samples |
| `TimerStatistics.PrecisionTimer.CalculatePercentile` | src/libs/axonvex_core/src/precisionTimer.cpp:179-196 | the percentile of exactly the last samples, refused out of range or without samples |
| `SlidingWindow.OverwriteKeepsWindow` | src/libs/axonvex_core/src/precisionTimer.cpp:241-249 | overwriting at the head and moving it on slides the window by one |
| `MovingAverage.Unit.ProcessSync` | src/libs/axonvex_core/src/builtinUnits.cpp:68-83 | the exact mean of the last inputs, as many as came and fit the window; 0 for an empty window |
| `MovingAverage.Unit.Reset` | src/libs/axonvex_core/src/builtinUnits.cpp:60-90 | forgets all inputs |

## Left out

- Sockets, clocks, files, thread priorities, memory locking and logging: `send` and `recv` may
  answer anything, the clock is a value that never goes back, the rest has no effect here.
- Memory orderings weaker than interleaving.
- Scheduling policy changes in the middle of a cycle: the policy is a plain field read without a
  lock; between cycles it may change freely.
- Overflow of clock and duration arithmetic: times are unbounded integers, except where a
  selector compares with the largest representable value.
- `SchedulerTasks.BlocksAreSafe`: covers the task block, not the lifetime of the unit object it points to.
- `WorkerLifecycle.RunIsSafe`: the start/stop protocol is a state machine at the granularity of
  single statements, on values rather than as a class; spurious wake-ups, the destructor's detach
  and `withHandle` called from the worker itself are not in it.
- `EventBus.EveryBlockHasOneHolder`: what the dispatcher does inside a callback (publish, stop,
  drain) is covered as the doing of one more thread.
- `WorkerLifecycle.NoWaitCycle`: `addTask` is its wake-up only; the tasks mutex, held for short
  regions and never while waiting, is not in the waiting relation.
- `setThreadAffinity` and `enableRealTimeMode` on a live thread, `attemptRecovery` and automatic
  recovery, which stop and start the scheduler from the monitor thread: no claim about waiting or
  about the scheduler's flag covers them.
- `Teardown.UpUnderFatalIff`: one thread owns the system and makes all calls but emergency stops;
  a `try_lock` that fails although the mutex is free, an exception out of a lock operation, and the
  destructor are not in the model; of an exception out of the work of `initialize` the error
  transition comes before the clean-up. What a start or a stop of the scheduler does inside its
  locked region is `WorkerLifecycle.dfy`'s.
- Exceptions out of mission hooks, edits of the mission graph after ticking began, and exactly-once
  delivery through the control port: a command may be read twice.
- `MissionPipeline.HooksFollowTheGraph`: elements are their names, so an element registered twice
  under one name is one element.
- Text parsing of a spec document: what a parsed spec satisfies is stated, not the parser.
- `SpecValidator.Validate`: which section and item an error is about is kept, its message is not.
- `UnitParams.ConstraintsSatisfied`: bounds compare as reals; the conversion of large integers to
  double is not modelled.
- `SpecTheorems.ValidSpecLoads`: assumes that user code builds every unit with the ports its type
  describes, names unique on the unit, and that registering it does not throw.
- Wrap-around of the 32-bit unit number counter, and the event published for each registration.
- `Lifecycle.LateCallsFail`: an exception thrown after the last transition of a call is not modelled.
- `reset()` beside `initialize()`, and starting again after a completed stop.
- Schema validation, glob patterns for callbacks, and loading with JSON Merge Patch (RFC 7396) in
  the configuration.
- The ring protocol inside the bounded queue and the free list inside the memory pool: both are
  atomic here.
- `TimerStatistics.PercentileMonotone`: over the reals; the rounding of doubles is not modelled.
- `MovingAverage.Unit.ProcessSync`: exact sums over the reals; the drift of a running sum of
  doubles is not modelled.
- The timer's start, stop and lap around its samples, jitter statistics and deadline misses.
- Adapters, UDP, logger, safety policies, error handler, examples and benchmarks.
