# PiTrac core, modelled in Dafny

PiTrac is a golf launch monitor. It runs on a Raspberry Pi with global-shutter cameras. This project models the sequential core of its C++ code and proves properties of that model. It covers seven components:

- **Frame ring buffer.** `FrameBuffer` hands frames from the camera agent to the frame-processor agent (`frame_buffer.dfy`).
- **Unit-of-work lifecycle.** `GSAgentBase`, `GSTask` and `GSManagerBase` share one lifecycle. Start, stop, pause and resume drive one worker thread.
  - The shared state machine is the pure module `Lifecycle` (`lifecycle.dfy`).
  - One class per source file (`agent_base.dfy`, `task.dfy`, `manager_base.dfy`) proves each method against the matching `Lifecycle` function.
- **Supervisors.** `GSAgentTask` and `GSManagerTask` set up, start, watch, restart and stop their units.
  - The calls they make on the units are specified by module `Supervision` (`supervision.dfy`).
  - The two classes live in `agent_task.dfy` and `manager_task.dfy`.
- **Process-level task status.** `GSTaskBase` forks a child process, signals it and reaps it. Pure spec: `ProcessStatusMachine`. Class: `ProcessTask`. Both are in `task_base.dfy`.
- **Camera base.** `GSCameraBase` has three parts:
  - a drop-oldest frame queue;
  - capture, trigger and stream guards, specified in `camera_capture.dfy` and implemented by the class in `camera_base.dfy`;
  - the RAW10 unpacker, whose output is scaled to 8 bits (`raw10.dfy`).
- **Simulated camera.** `CameraHardware` contains the test-image state machine and the resolution selection (`camera_hardware.dfy`).
- **Image-analysis domain.** This covers the value objects (`value_objects.dfy`), the result records (`analysis_results.dfy`) and the OpenCV analyzer's decision logic (`image_analyzer.dfy`). The circles the Hough transform finds are an input; the analyzer scores them with its own confidence rule.

Conventions:

- **State-changing code** is a class whose methods ensure `State() == Spec(old(State()), inputs)`. The properties are proved about the pure `Spec` functions.
- **Outside results are parameters.** Threads, the OS, libcamera and OpenCV enter only through their results: what `initialize()` did, whether `fork` succeeded, what `waitpid` reported, which circles were detected.
- **Each thread step is atomic.** The worker body is split into `WorkerBegin` (up to `execute()`) and `WorkerEnd` (after it). Joining a thread runs whatever is left of its body.
- **Doubles are exact reals.** NaN and infinity are not representable. Distances are compared through their squares.
- **Counters are 64-bit.** They wrap modulo 2^64, as `std::atomic<uint64_t>` does.

Where a file's header and its `.cpp` disagree, the model follows the `.cpp`:

- `GSTaskBase.cpp` uses `child_pid_` and `waitForExit`, which the header lacks.
- `camera_hardware.h` declares `VideoState` but the code uses `TestVideoState`.

Enumerations are taken from the header beside each file. So `GSTask` has an eight-state `TaskStatus` and `GSTaskBase` a seven-state one.

## Model

| member | source | states |
|---|---|---|
| FrameBuffers.FrameBuffer.Create | src/Infrastructure/DataStructures/FrameBuffer.h:39-49 | capacity 0 is the `invalid_argument` error; otherwise a fresh empty buffer with head = tail = 0 |
| FrameBuffers.FrameBuffer.constructor | src/Infrastructure/DataStructures/FrameBuffer.h:39-49 | a positive capacity gives an empty buffer, both indices 0 |
| FrameBuffers.Size | src/Infrastructure/DataStructures/FrameBuffer.h:140-143 | the wrap-around distance equals the number of readable frames and is at most capacity − 1 |
| FrameBuffers.Add | src/Infrastructure/DataStructures/FrameBuffer.h:64-77 | returns true iff fewer than capacity − 1 frames are held; then the frame is appended to the FIFO view, otherwise the oldest frame is dropped and the new one is not stored |
| FrameBuffers.FrameBuffer.AddFrame | src/Infrastructure/DataStructures/FrameBuffer.h:64-77 | the in-place array update agrees with `Add`: appended when stored, oldest dropped when not |
| FrameBuffers.WouldDropIsSizeCapMinusOne | src/Infrastructure/DataStructures/FrameBuffer.h:66-67 | the "full" test of `addFrame` holds iff size = capacity − 1 |
| FrameBuffers.CapacityOneNeverHolds | src/Infrastructure/DataStructures/FrameBuffer.h:64-77 | with one slot every add drops and nothing can be read |
| FrameBuffers.ThreeSlotsFiveFramesLeavesFourth | src/Infrastructure/DataStructures/FrameBuffer.h:64-77 | capacity 3, frames F1..F5 added: only F4 remains readable |
| FrameBuffers.AddAll | src/Infrastructure/DataStructures/FrameBuffer.h:64-77 | successive adds keep the ring well formed with the same capacity |
| FrameBuffers.AddOverwriting | src/Infrastructure/DataStructures/FrameBuffer.h:53-63 | the add the doc comment describes: the result flag is true iff nothing is overwritten |
| FrameBuffers.OverwritingKeepsNewFrame | src/Infrastructure/DataStructures/FrameBuffer.h:53-63 | with ≥ 2 slots the corrected add always makes the new frame the newest, dropping the oldest only when full |
| FrameBuffers.Get | src/Infrastructure/DataStructures/FrameBuffer.h:94-103 | empty: nothing and the ring unchanged; otherwise the oldest frame, removed from the FIFO view |
| FrameBuffers.FrameBuffer.GetFrame | src/Infrastructure/DataStructures/FrameBuffer.h:94-103 | agrees with `Get`; on an empty buffer the out-parameter, head and tail are left as they were |
| FrameBuffers.IsEmptyRing | src/Infrastructure/DataStructures/FrameBuffer.h:110-113 | head = tail iff size 0 iff nothing readable |
| FrameBuffers.FrameBuffer.IsEmpty | src/Infrastructure/DataStructures/FrameBuffer.h:110-113 | true iff the buffer's contents are empty |
| FrameBuffers.IsFullRing | src/Infrastructure/DataStructures/FrameBuffer.h:126-129 | as written: always true with one slot, and iff exactly one frame is readable with two or more |
| FrameBuffers.FrameBuffer.IsFull | src/Infrastructure/DataStructures/FrameBuffer.h:126-129 | agrees with `IsFullRing`: with capacity ≥ 2, true iff one frame is held |
| FrameBuffers.IsFullCorrected | src/Infrastructure/DataStructures/FrameBuffer.h:115-125 | the documented meaning: true iff the next add would drop a frame |
| FrameBuffers.IsFullAgreesOnlyUpToTwoSlots | src/Infrastructure/DataStructures/FrameBuffer.h:115-129 | the written and documented tests agree for one or two slots |
| FrameBuffers.IsFullDisagreesWithThreeSlots | src/Infrastructure/DataStructures/FrameBuffer.h:115-129 | with three slots and one frame, `isFull()` is true yet the next add stores its frame |
| FrameBuffers.FrameBuffer.Size | src/Infrastructure/DataStructures/FrameBuffer.h:140-143 | equals the length of the contents and is at most capacity − 1 |
| FrameBuffers.FrameBuffer.Capacity | src/Infrastructure/DataStructures/FrameBuffer.h:150-153 | the number of slots of the array |
| Lifecycle.Priority.Value | src/Application/Agents/AgentBase/GSAgentBase.h:27-33 | Low, Normal, High and Critical have the values 0, 1, 2 and 3, each value belonging to exactly one priority |
| Lifecycle.Start | src/Application/AppAgents/AgentBase/GSAgentBase.cpp:34-66 | Running: false, nothing changes; Paused: resumes and returns true; otherwise flags cleared, counters zeroed, and true iff the thread was created, else Failed and false with the old thread left as it was; only a successful spawn over a joinable thread is excluded (`std::terminate`) |
| Lifecycle.Pause | src/Application/AppAgents/AgentBase/GSAgentBase.cpp:92-101 | acts only in Running: Paused, pause flag raised; otherwise no change |
| Lifecycle.Resume | src/Application/AppAgents/AgentBase/GSAgentBase.cpp:103-112 | acts only in Paused: Running, pause flag cleared; otherwise no change |
| Lifecycle.ResumeUndoesPause | src/Application/AppAgents/AgentBase/GSAgentBase.cpp:92-112 | pause then resume on a running unit restores it; only the observed status changes grow |
| Lifecycle.WorkerBegin | src/Application/AppAgents/AgentBase/GSAgentBase.cpp:227-245 | status goes Initializing; execute() is entered iff initialize() succeeded; otherwise Failed, with cleanup only when initialize() threw |
| Lifecycle.WorkerEnd | src/Application/AppAgents/AgentBase/GSAgentBase.cpp:245-268 | a throw gives Failed; a normal return gives Completed unless stop was requested, when the status is left alone; cleanup runs once and is_running_ ends false |
| Lifecycle.WorkerRun | src/Application/AppAgents/AgentBase/GSAgentBase.cpp:227-274 | the whole worker body ends with the thread finished and not running |
| Lifecycle.CleanupRunsOnceUnlessInitFalse | src/Application/AppAgents/AgentBase/GSAgentBase.cpp:227-266 | cleanup() runs exactly once on every path except initialize() returning false |
| Lifecycle.Join | src/Application/AppAgents/AgentBase/GSAgentBase.cpp:84-87 | joining finishes whatever is left of the worker and leaves no joinable thread |
| Lifecycle.StopJoining | src/Application/AppAgents/AgentBase/GSAgentBase.cpp:68-90 | no-op in NotStarted, Completed and Failed; otherwise Stopping is reported first, stop raised, pause cleared, thread joined |
| Lifecycle.StopDuringExecuteStaysStopping | src/Application/AppAgents/AgentBase/GSAgentBase.cpp:78-87 | stop during execute(), then a normal return: the status stays Stopping, never Completed |
| Lifecycle.StopBeforeWorkerBeginsLeavesRunning | src/Application/AppAgents/AgentBase/GSAgentBase.cpp:227-251 | a stop before the worker is scheduled is overwritten: the unit ends Running with no thread, and every later start() returns false |
| Lifecycle.FailedWorkerCannotBeRestarted | src/Application/AppAgents/AgentBase/GSAgentBase.cpp:58 | a worker that ended Failed is never joined by stop(), so a new start() would assign over a joinable thread |
| Lifecycle.PollBudget | src/Application/AppAgents/AgentBase/GSAgentBase.cpp:126-130 | the number of 10 ms polls before a timeout of ms milliseconds has elapsed |
| Lifecycle.TimedWait | src/Application/AppAgents/AgentBase/GSAgentBase.cpp:124-132 | the timed wait returns true iff the worker is no longer running at its end |
| Lifecycle.WaitForCompletion | src/Application/AppAgents/AgentBase/GSAgentBase.cpp:114-135 | no joinable thread: true; unbounded: joins and true; otherwise true iff not running at the end |
| Lifecycle.StopWaiting | src/Application/Managers/ManagerBase/GSManagerBase.cpp:66-92 | the manager's stop: same guard and flags, then at most a 2 s wait, never a join |
| Lifecycle.StoppedManagerCannotBeRestarted | src/Application/Managers/ManagerBase/GSManagerBase.cpp:81-89 | a manager whose thread was created can never be started afresh after stop() |
| Lifecycle.StartJoiningFirst | src/Application/AppAgents/AgentBase/GSAgentBase.cpp:34-66 | start() with a join of a finished thread before the spawn: agrees with `start()` whenever `start()` is defined without a join; outside Running and Paused it always succeeds iff the spawn does, with flags and counters reset and a fresh worker |
| Lifecycle.CorrectedStartRestartsFailedWorker | src/Application/AppAgents/AgentBase/GSAgentBase.cpp:56-58 | with that start(), a worker that ended Failed and was ignored by stop() is replaced by a new one, after exactly one cleanup() |
| Lifecycle.CorrectedStartRestartsStoppedManager | src/Application/Managers/ManagerBase/GSManagerBase.cpp:66-92 | with that start(), a manager stopped by the bounded wait can be started afresh, whether or not its worker left execute() within 2 s |
| Lifecycle.WorkerBeginHonoringStop | src/Application/AppAgents/AgentBase/GSAgentBase.cpp:227-245 | the worker's first step if it looked at the stop flag: with no stop, the same as the source's; with a stop, it leaves without reporting any status |
| Lifecycle.CorrectedWorkerLetsStopStand | src/Application/AppAgents/AgentBase/GSAgentBase.cpp:227-251 | with that worker, a stop before the worker is scheduled leaves the unit Stopping, and the next start() creates a thread |
| Lifecycle.CheckTimeout | src/Application/AppAgents/AgentBase/GSAgentBase.cpp:183-196 | true and Timeout iff the timeout is finite and the elapsed time exceeds it; otherwise no change |
| Lifecycle.FirstRelease | src/Application/AppAgents/AgentBase/GSAgentBase.cpp:175-181 | the first check at which the pause flag is down or stop is up, and none before it |
| AgentBase.AgentStatusToString | src/Application/Agents/AgentBase/GSAgentBase.h:185-208 | the name of each of the eight statuses |
| AgentBase.AgentStatusNamesRoundTrip | src/Application/Agents/AgentBase/GSAgentBase.h:185-208 | reading a status name back gives the status |
| AgentBase.AgentStatusNamesDistinct | src/Application/Agents/AgentBase/GSAgentBase.h:185-208 | different statuses have different names |
| AgentBase.GSAgentBase.constructor | src/Application/AppAgents/AgentBase/GSAgentBase.cpp:8-22 | NotStarted, flags down, counters 0, no timeout, no thread |
| AgentBase.GSAgentBase.ChangeStatus | src/Application/AppAgents/AgentBase/GSAgentBase.cpp:276-296 | replaces the status; the callback observes the new one |
| AgentBase.GSAgentBase.SetStatus | src/Application/AppAgents/AgentBase/GSAgentBase.cpp:170-173 | same as changeStatus |
| AgentBase.GSAgentBase.Start | src/Application/AppAgents/AgentBase/GSAgentBase.cpp:34-66 | agrees with `Lifecycle.Start`; a successful spawn requires that no joinable thread exists |
| AgentBase.GSAgentBase.Stop | src/Application/AppAgents/AgentBase/GSAgentBase.cpp:68-90 | agrees with `Lifecycle.StopJoining` |
| AgentBase.GSAgentBase.Pause | src/Application/AppAgents/AgentBase/GSAgentBase.cpp:92-101 | agrees with `Lifecycle.Pause` |
| AgentBase.GSAgentBase.Resume | src/Application/AppAgents/AgentBase/GSAgentBase.cpp:103-112 | agrees with `Lifecycle.Resume` |
| AgentBase.GSAgentBase.WorkerBegin | src/Application/AppAgents/AgentBase/GSAgentBase.cpp:227-245 | agrees with `Lifecycle.WorkerBegin` |
| AgentBase.GSAgentBase.WorkerEnd | src/Application/AppAgents/AgentBase/GSAgentBase.cpp:245-274 | agrees with `Lifecycle.WorkerEnd` |
| AgentBase.GSAgentBase.AgentWrapper | src/Application/AppAgents/AgentBase/GSAgentBase.cpp:227-274 | agrees with `Lifecycle.WorkerRun` |
| AgentBase.GSAgentBase.Join | src/Application/AppAgents/AgentBase/GSAgentBase.cpp:84-87 | agrees with `Lifecycle.Join` |
| AgentBase.GSAgentBase.WaitForCompletion | src/Application/AppAgents/AgentBase/GSAgentBase.cpp:114-135 | agrees with `Lifecycle.WaitForCompletion` |
| AgentBase.GSAgentBase.HandlePause | src/Application/AppAgents/AgentBase/GSAgentBase.cpp:175-181 | returns exactly at the first check where the pause flag is down or stop is up |
| AgentBase.GSAgentBase.CheckTimeout | src/Application/AppAgents/AgentBase/GSAgentBase.cpp:183-196 | agrees with `Lifecycle.CheckTimeout` |
| AgentBase.GSAgentBase.SetTimeout | src/Application/Agents/AgentBase/GSAgentBase.h:122-125 | stores the timeout, nothing else changes |
| AgentBase.GSAgentBase.SetPriority | src/Application/AppAgents/AgentBase/GSAgentBase.cpp:148-152 | stores the priority, nothing else changes |
| AgentBase.GSAgentBase.IncrementIterations | src/Application/Agents/AgentBase/GSAgentBase.h:154-157 | raises only the iteration counter, by one modulo 2^64 |
| AgentBase.GSAgentBase.IncrementErrors | src/Application/Agents/AgentBase/GSAgentBase.h:159-162 | raises only the error counter, by one modulo 2^64 |
| TaskLifecycle.GSTask.constructor | src/Infrastructure/TaskProcess/GSTask.cpp:8-22 | NotStarted, flags down, counters 0, no timeout, no thread |
| TaskLifecycle.GSTask.ChangeStatus | src/Infrastructure/TaskProcess/GSTask.cpp:276-296 | replaces the status; the callback observes it |
| TaskLifecycle.GSTask.SetStatus | src/Infrastructure/TaskProcess/GSTask.cpp:170-173 | same as changeStatus |
| TaskLifecycle.GSTask.Start | src/Infrastructure/TaskProcess/GSTask.cpp:34-66 | agrees with `Lifecycle.Start` |
| TaskLifecycle.GSTask.Stop | src/Infrastructure/TaskProcess/GSTask.cpp:68-90 | agrees with `Lifecycle.StopJoining` |
| TaskLifecycle.GSTask.Pause | src/Infrastructure/TaskProcess/GSTask.cpp:92-101 | agrees with `Lifecycle.Pause` |
| TaskLifecycle.GSTask.Resume | src/Infrastructure/TaskProcess/GSTask.cpp:103-112 | agrees with `Lifecycle.Resume` |
| TaskLifecycle.GSTask.WorkerBegin | src/Infrastructure/TaskProcess/GSTask.cpp:227-245 | agrees with `Lifecycle.WorkerBegin` |
| TaskLifecycle.GSTask.WorkerEnd | src/Infrastructure/TaskProcess/GSTask.cpp:245-274 | agrees with `Lifecycle.WorkerEnd` |
| TaskLifecycle.GSTask.TaskWrapper | src/Infrastructure/TaskProcess/GSTask.cpp:227-274 | agrees with `Lifecycle.WorkerRun` |
| TaskLifecycle.GSTask.Join | src/Infrastructure/TaskProcess/GSTask.cpp:84-87 | agrees with `Lifecycle.Join` |
| TaskLifecycle.GSTask.WaitForCompletion | src/Infrastructure/TaskProcess/GSTask.cpp:114-135 | agrees with `Lifecycle.WaitForCompletion` |
| TaskLifecycle.GSTask.HandlePause | src/Infrastructure/TaskProcess/GSTask.cpp:175-181 | returns exactly at the first releasing check |
| TaskLifecycle.GSTask.CheckTimeout | src/Infrastructure/TaskProcess/GSTask.cpp:183-196 | agrees with `Lifecycle.CheckTimeout` |
| TaskLifecycle.GSTask.SetTimeout | src/Infrastructure/TaskProcess/GSTask.h:112-115 | stores the timeout only |
| TaskLifecycle.GSTask.SetPriority | src/Infrastructure/TaskProcess/GSTask.cpp:148-152 | stores the priority only |
| TaskLifecycle.GSTask.IncrementIterations | src/Infrastructure/TaskProcess/GSTask.h:144-147 | raises only the iteration counter, by one modulo 2^64 |
| TaskLifecycle.GSTask.IncrementErrors | src/Infrastructure/TaskProcess/GSTask.h:149-152 | raises only the error counter, by one modulo 2^64 |
| ManagerBase.ManagerStatusToString | src/Application/Managers/ManagerBase/GSManagerBase.h:185-208 | the name of each status |
| ManagerBase.ManagerStatusNamesRoundTrip | src/Application/Managers/ManagerBase/GSManagerBase.h:185-208 | reading a status name back gives the status |
| ManagerBase.ManagerStatusNamesDistinct | src/Application/Managers/ManagerBase/GSManagerBase.h:185-208 | different statuses have different names |
| ManagerBase.GSManagerBase.constructor | src/Application/Managers/ManagerBase/GSManagerBase.cpp:8-22 | NotStarted, flags down, counters 0, no timeout, no thread |
| ManagerBase.GSManagerBase.ChangeStatus | src/Application/Managers/ManagerBase/GSManagerBase.cpp:275-292 | replaces the status; the callback observes it |
| ManagerBase.GSManagerBase.SetStatus | src/Application/Managers/ManagerBase/GSManagerBase.cpp:169-172 | same as changeStatus |
| ManagerBase.GSManagerBase.Start | src/Application/Managers/ManagerBase/GSManagerBase.cpp:34-64 | agrees with `Lifecycle.Start` |
| ManagerBase.GSManagerBase.Stop | src/Application/Managers/ManagerBase/GSManagerBase.cpp:66-92 | agrees with `Lifecycle.StopWaiting` |
| ManagerBase.GSManagerBase.Pause | src/Application/Managers/ManagerBase/GSManagerBase.cpp:94-102 | agrees with `Lifecycle.Pause` |
| ManagerBase.GSManagerBase.Resume | src/Application/Managers/ManagerBase/GSManagerBase.cpp:104-112 | agrees with `Lifecycle.Resume` |
| ManagerBase.GSManagerBase.WorkerBegin | src/Application/Managers/ManagerBase/GSManagerBase.cpp:226-244 | agrees with `Lifecycle.WorkerBegin` |
| ManagerBase.GSManagerBase.WorkerEnd | src/Application/Managers/ManagerBase/GSManagerBase.cpp:244-273 | agrees with `Lifecycle.WorkerEnd` |
| ManagerBase.GSManagerBase.ManagerWrapper | src/Application/Managers/ManagerBase/GSManagerBase.cpp:226-273 | agrees with `Lifecycle.WorkerRun` |
| ManagerBase.GSManagerBase.Join | src/Application/Managers/ManagerBase/GSManagerBase.cpp:114-122 | agrees with `Lifecycle.Join` |
| ManagerBase.GSManagerBase.WaitForCompletion | src/Application/Managers/ManagerBase/GSManagerBase.cpp:114-135 | agrees with `Lifecycle.WaitForCompletion` |
| ManagerBase.GSManagerBase.HandlePause | src/Application/Managers/ManagerBase/GSManagerBase.cpp:174-180 | returns exactly at the first releasing check |
| ManagerBase.GSManagerBase.CheckTimeout | src/Application/Managers/ManagerBase/GSManagerBase.cpp:182-195 | agrees with `Lifecycle.CheckTimeout` |
| ManagerBase.GSManagerBase.SetTimeout | src/Application/Managers/ManagerBase/GSManagerBase.h:122-125 | stores the timeout only |
| ManagerBase.GSManagerBase.SetPriority | src/Application/Managers/ManagerBase/GSManagerBase.cpp:147-151 | stores the priority only |
| ManagerBase.GSManagerBase.IncrementIterations | src/Application/Managers/ManagerBase/GSManagerBase.h:154-157 | raises only the iteration counter, by one modulo 2^64 |
| ManagerBase.GSManagerBase.IncrementErrors | src/Application/Managers/ManagerBase/GSManagerBase.h:159-162 | raises only the error counter, by one modulo 2^64 |
| Supervision.Each | src/Infrastructure/AgentTask/GSAgentTask.cpp:79-86 | one call per unit, in list order |
| Supervision.FirstFailure | src/Infrastructure/AgentTask/GSAgentTask.cpp:79-86 | the first failing result, every earlier one succeeding |
| Supervision.Attempted | src/Infrastructure/AgentTask/GSAgentTask.cpp:79-86 | a short-circuit pass calls the units up to and including the first failure |
| Supervision.StopCalls | src/Infrastructure/AgentTask/GSAgentTask.cpp:109-124 | stop then wait, for each unit: two calls per unit |
| Supervision.StopCallsHaveOnlyStopAndWait | src/Infrastructure/AgentTask/GSAgentTask.cpp:109-124 | stopping every unit makes only stop and wait calls, and stops each unit |
| Supervision.RestartCalls | src/Infrastructure/AgentTask/GSAgentTask.cpp:138-153 | the restart pass makes at most two calls per unit |
| Supervision.RestartCallsHookAndStartOnly | src/Infrastructure/AgentTask/GSAgentTask.cpp:138-153 | the restart pass makes only failure-hook and start() calls, and none when every unit is running |
| Supervision.RestartOnlyNonRunning | src/Infrastructure/AgentTask/GSAgentTask.cpp:138-153 | the restart pass makes two calls per non-running unit and calls only non-running units |
| Supervision.RestartHookBeforeStart | src/Infrastructure/AgentTask/GSAgentTask.cpp:142-150 | each non-running unit gets the failure hook immediately followed by its start() |
| Supervision.RoundStep | src/Infrastructure/AgentTask/GSAgentTask.cpp:49-67 | one check leaves iff stop is requested or (restart disabled and a unit is down); leaving makes no calls |
| Supervision.WithoutId | src/Infrastructure/AgentTask/GSAgentTask.cpp:161-173 | removal by id keeps only units with another id |
| Supervision.WithoutIdDistributes | src/Infrastructure/AgentTask/GSAgentTask.cpp:161-173 | removal by id preserves the order of the kept units |
| Supervision.WithoutAbsentIdIsIdentity | src/Infrastructure/AgentTask/GSAgentTask.cpp:161-173 | removing an absent id changes nothing |
| Supervision.WithoutIdKeepsOthers | src/Infrastructure/AgentTask/GSAgentTask.cpp:161-173 | every unit with another id survives |
| Supervision.Main | src/Infrastructure/AgentTask/GSAgentTask.cpp:20-73 | a refused hook ends at once; a failed setup ends with SetupFailed; the loop is reached iff the hook, every setup and every start succeed |
| Supervision.Monitor | src/Infrastructure/AgentTask/GSAgentTask.cpp:49-69 | with restart disabled the loop makes no calls; a loop still running has seen no stop request |
| Supervision.EarlyExitStopsNothing | src/Infrastructure/AgentTask/GSAgentTask.cpp:20-42 | a failed hook, setup or start returns before the loop without stopping any unit |
| Supervision.SetupFailureSkipsLaterUnits | src/Infrastructure/AgentTask/GSAgentTask.cpp:75-90 | a failed setup sets up only the units up to the failing one and starts none |
| Supervision.MonitorEndsAtFirstDown | src/Infrastructure/AgentTask/GSAgentTask.cpp:49-67 | with restart disabled, the loop leaves at the first check k that finds a unit down, when no stop was requested up to it, making no calls |
| Supervision.RestartDisabledEndsOnFirstDown | src/Infrastructure/AgentTask/GSAgentTask.cpp:49-72 | with restart disabled, a unit found down at any check k (no stop requested up to it) ends supervision: all set up, all started, no restart, then every unit stopped |
| Supervision.LoopExitStopsAll | src/Infrastructure/AgentTask/GSAgentTask.cpp:49-72 | every exit from the monitoring loop ends by stopping every unit |
| AgentTask.GSAgentTask.constructor | src/Infrastructure/AgentTask/GSAgentTask.cpp:5-13 | no agents, restart disabled, check interval 1000 ms |
| AgentTask.GSAgentTask.AddAgent | src/Infrastructure/AgentTask/GSAgentTask.cpp:155-159 | appends the agent at the end, keeping the others in order; the restart flag, check interval, status and calls are unchanged |
| AgentTask.GSAgentTask.RemoveAgent | src/Infrastructure/AgentTask/GSAgentTask.cpp:161-173 | the list becomes the old one without the units of that id, in order; the restart flag, check interval, status and calls are unchanged |
| AgentTask.GSAgentTask.SetRestartFailedAgents | src/Infrastructure/AgentTask/GSAgentTask.h:141-144 | stores the flag; the list, check interval, status and calls are unchanged |
| AgentTask.GSAgentTask.SetAgentCheckInterval | src/Infrastructure/AgentTask/GSAgentTask.h:151-154 | stores the interval; the list, restart flag, status and calls are unchanged |
| AgentTask.GSAgentTask.SetupAllAgents | src/Infrastructure/AgentTask/GSAgentTask.cpp:75-90 | true iff every setup succeeds; setup is called in order up to the first failure |
| AgentTask.GSAgentTask.StartAllAgents | src/Infrastructure/AgentTask/GSAgentTask.cpp:92-107 | true iff every start succeeds; no rollback of started agents |
| AgentTask.GSAgentTask.StopAllAgents | src/Infrastructure/AgentTask/GSAgentTask.cpp:109-124 | stop then a 5 s wait, for each agent in order |
| AgentTask.GSAgentTask.AreAllAgentsRunning | src/Infrastructure/AgentTask/GSAgentTask.cpp:126-136 | true iff every agent is running (true for none) |
| AgentTask.GSAgentTask.RestartFailedAgents | src/Infrastructure/AgentTask/GSAgentTask.cpp:138-153 | the calls are those of `RestartCalls` |
| AgentTask.GSAgentTask.CheckAgents | src/Infrastructure/AgentTask/GSAgentTask.cpp:49-67 | one pass of the loop body agrees with `Supervision.RoundStep` |
| AgentTask.GSAgentTask.MonitorAgents | src/Infrastructure/AgentTask/GSAgentTask.cpp:49-69 | the loop's calls and exit agree with `Supervision.Monitor` |
| AgentTask.GSAgentTask.SuperviseAgents | src/Infrastructure/AgentTask/GSAgentTask.cpp:49-72 | the loop's calls, then every agent stopped when the loop was left |
| AgentTask.GSAgentTask.ProcessMain | src/Infrastructure/AgentTask/GSAgentTask.cpp:20-73 | the calls and outcome agree with `Supervision.Main`; status becomes Running iff the loop was reached; only the call record and the status may change, so the agents, the restart flag and the check interval are kept |
| ManagerTask.GSManagerTask.constructor | src/Infrastructure/ManagerTask/GSManagerTask.cpp:5-13 | no managers, restart disabled, check interval 1000 ms |
| ManagerTask.GSManagerTask.AddManager | src/Infrastructure/ManagerTask/GSManagerTask.cpp:155-159 | appends the manager at the end, keeping the others in order; the restart flag, check interval, status and calls are unchanged |
| ManagerTask.GSManagerTask.RemoveManager | src/Infrastructure/ManagerTask/GSManagerTask.cpp:161-173 | the list becomes the old one without the units of that id, in order; the restart flag, check interval, status and calls are unchanged |
| ManagerTask.GSManagerTask.SetRestartFailedManagers | src/Infrastructure/ManagerTask/GSManagerTask.h:100-103 | stores the flag; the list, check interval, status and calls are unchanged |
| ManagerTask.GSManagerTask.SetManagerCheckInterval | src/Infrastructure/ManagerTask/GSManagerTask.h:111-114 | stores the interval; the list, restart flag, status and calls are unchanged |
| ManagerTask.GSManagerTask.SetupAllManagers | src/Infrastructure/ManagerTask/GSManagerTask.cpp:75-90 | true iff every setup succeeds; short-circuits at the first failure |
| ManagerTask.GSManagerTask.StartAllManagers | src/Infrastructure/ManagerTask/GSManagerTask.cpp:92-107 | true iff every start succeeds; short-circuits, no rollback |
| ManagerTask.GSManagerTask.StopAllManagers | src/Infrastructure/ManagerTask/GSManagerTask.cpp:109-124 | stop then a 5 s wait, for each manager in order |
| ManagerTask.GSManagerTask.AreAllManagersRunning | src/Infrastructure/ManagerTask/GSManagerTask.cpp:126-136 | true iff every manager is running |
| ManagerTask.GSManagerTask.RestartFailedManagers | src/Infrastructure/ManagerTask/GSManagerTask.cpp:138-153 | hook and start() on exactly the non-running managers |
| ManagerTask.GSManagerTask.CheckManagers | src/Infrastructure/ManagerTask/GSManagerTask.cpp:49-67 | one pass of the loop body agrees with `Supervision.RoundStep` |
| ManagerTask.GSManagerTask.MonitorManagers | src/Infrastructure/ManagerTask/GSManagerTask.cpp:49-69 | agrees with `Supervision.Monitor` |
| ManagerTask.GSManagerTask.SuperviseManagers | src/Infrastructure/ManagerTask/GSManagerTask.cpp:49-72 | the loop's calls, then every manager stopped when the loop was left |
| ManagerTask.GSManagerTask.ProcessMain | src/Infrastructure/ManagerTask/GSManagerTask.cpp:20-73 | the calls and outcome agree with `Supervision.Main`; status becomes Running iff the loop was reached; only the call record and the status may change, so the managers, the restart flag and the check interval are kept |
| ProcessStatusMachine.TaskStatusToString | src/Infrastructure/TaskProcess/GSTaskBase.h:351-375 | the name of each of the seven statuses |
| ProcessStatusMachine.TaskStatusNamesRoundTrip | src/Infrastructure/TaskProcess/GSTaskBase.h:351-375 | reading a status name back gives the status |
| ProcessStatusMachine.TaskStatusNamesDistinct | src/Infrastructure/TaskProcess/GSTaskBase.h:351-375 | different statuses have different names |
| ProcessStatusMachine.Start | src/Infrastructure/TaskProcess/GSTaskBase.cpp:36-83 | Running: false, no change; otherwise Starting, then Running and true iff the hook and fork succeed, else Failed and false |
| ProcessStatusMachine.Stop | src/Infrastructure/TaskProcess/GSTaskBase.cpp:85-108 | no-op unless running; then Stopping, stop flag, one SIGTERM to the child |
| ProcessStatusMachine.WaitBudget | src/Infrastructure/TaskProcess/GSTaskBase.cpp:122-125 | the number of 100 ms polls in the timeout |
| ProcessStatusMachine.FirstSettled | src/Infrastructure/TaskProcess/GSTaskBase.cpp:125-176 | the first poll within the budget that does not report a running child |
| ProcessStatusMachine.FirstSettledIsStable | src/Infrastructure/TaskProcess/GSTaskBase.cpp:125-176 | a longer wait settles on the same poll |
| ProcessStatusMachine.Settle | src/Infrastructure/TaskProcess/GSTaskBase.cpp:132-168 | exit 0 gives Stopped, other exits Crashed with one exit report, a waitpid error Failed; the pid is cleared |
| ProcessStatusMachine.WaitForExit | src/Infrastructure/TaskProcess/GSTaskBase.cpp:110-181 | true at once without a child; otherwise true iff a poll settles, and a timeout changes nothing |
| ProcessStatusMachine.ForceKill | src/Infrastructure/TaskProcess/GSTaskBase.cpp:183-191 | with a child, SIGKILL is sent first, then a 5 s wait; without one nothing happens |
| ProcessStatusMachine.StopThenCleanExitEndsStopped | src/Infrastructure/TaskProcess/GSTaskBase.cpp:85-158 | stop then a clean exit ends Stopped with no child, and a second stop does nothing |
| ProcessStatusMachine.RestartWhileStoppingForgetsChild | src/Infrastructure/TaskProcess/GSTaskBase.cpp:40-44 | start() while Stopping overwrites the old child's pid, which can no longer be signalled |
| ProcessStatusMachine.StartRefusingWhileStopping | src/Infrastructure/TaskProcess/GSTaskBase.cpp:36-44 | start() that also refuses while a child is being stopped: nothing changes then; from every other status it is the source's start() |
| ProcessStatusMachine.CorrectedStartKeepsStoppingChild | src/Infrastructure/TaskProcess/GSTaskBase.cpp:36-44 | with that start(), the pid of a child being stopped stays recorded, and a start succeeds only from a status other than Running and Stopping, leaving the task running |
| ProcessTask.GSTaskBase.constructor | src/Infrastructure/TaskProcess/GSTaskBase.cpp:15-24 | NotStarted, child pid −1, stop flag down |
| ProcessTask.GSTaskBase.ChangeStatus | src/Infrastructure/TaskProcess/GSTaskBase.cpp:278-293 | replaces the status; the callback observes it |
| ProcessTask.GSTaskBase.IsRunning | src/Infrastructure/TaskProcess/GSTaskBase.cpp:199-203 | true iff Running and a child pid is recorded |
| ProcessTask.GSTaskBase.IsChildProcessAlive | src/Infrastructure/TaskProcess/GSTaskBase.cpp:243-250 | true iff the recorded pid is positive |
| ProcessTask.GSTaskBase.Start | src/Infrastructure/TaskProcess/GSTaskBase.cpp:36-83 | agrees with `ProcessStatusMachine.Start` |
| ProcessTask.GSTaskBase.Stop | src/Infrastructure/TaskProcess/GSTaskBase.cpp:85-108 | agrees with `ProcessStatusMachine.Stop` |
| ProcessTask.GSTaskBase.WaitForExit | src/Infrastructure/TaskProcess/GSTaskBase.cpp:110-181 | the polling loop agrees with `ProcessStatusMachine.WaitForExit` |
| ProcessTask.GSTaskBase.ForceKill | src/Infrastructure/TaskProcess/GSTaskBase.cpp:183-191 | agrees with `ProcessStatusMachine.ForceKill` |
| ProcessTask.GSTaskBase.SetIPCEndpoint | src/Infrastructure/TaskProcess/GSTaskBase.h:186-189 | stores the endpoint, status untouched |
| CameraCapture.Initial | src/Interfaces/Camera/GSCameraBase/GSCameraBase.h:27-34 | not open, not configured, not capturing, in the given trigger mode |
| CameraCapture.OpenCamera | src/Interfaces/Camera/GSCameraBase/GSCameraBase.cpp:13-71 | true iff already open or the camera was acquired; only the open flags change |
| CameraCapture.ReconfigureForActiveStream | src/Interfaces/Camera/GSCameraBase/GSCameraBase.cpp:640-736 | true iff the active stream is a real stream and the configuration is applied |
| CameraCapture.InitializeCamera | src/Interfaces/Camera/GSCameraBase/GSCameraBase.cpp:73-91 | true iff open, the stream is configured and the trigger mode is accepted |
| CameraCapture.SetTriggerMode | src/Interfaces/Camera/GSCameraBase/GSCameraBase.cpp:200-216 | fails while capturing or unconfigured; the mode changes only on success, so EXTERNAL_TRIGGER is never reached from free running |
| CameraCapture.StartContinuousCapture | src/Interfaces/Camera/GSCameraBase/GSCameraBase.cpp:218-256 | false unless open and configured; already capturing is success; on success capturing and started |
| CameraCapture.StopContinuousCapture | src/Interfaces/Camera/GSCameraBase/GSCameraBase.cpp:258-269 | always true; capturing and started end false |
| CameraCapture.SwitchStream | src/Interfaces/Camera/GSCameraBase/GSCameraBase.cpp:271-346 | same stream: true, no change; success: the new stream, capture state kept; failure: not capturing |
| CameraCapture.StopThenStartRestartsCamera | src/Interfaces/Camera/GSCameraBase/GSCameraBase.cpp:218-269 | stopping and starting again restarts the camera |
| CameraCapture.FreeRunningStaysFreeRunning | src/Interfaces/Camera/GSCameraBase/GSCameraBase.cpp:465-494 | no operation moves a free-running camera to external trigger |
| CameraCapture.Newest | src/Interfaces/Camera/GSCameraBase/GSCameraBase.cpp:535-547 | the last `max` elements, in order |
| CameraCapture.Buffered | src/Interfaces/Camera/GSCameraBase/GSCameraBase.cpp:535-547 | after adding, at most `max` frames; the new frame is last; the queue is a suffix of the old one plus the frame |
| CameraCapture.BufferedAllKeepsNewest | src/Interfaces/Camera/GSCameraBase/GSCameraBase.cpp:535-547 | any run of arrivals leaves exactly the newest `max` frames in arrival order |
| CameraCapture.NewestOfNewestRun | src/Interfaces/Camera/GSCameraBase/GSCameraBase.cpp:535-547 | trimming early does not change what is kept |
| CameraCapture.Latest | src/Interfaces/Camera/GSCameraBase/GSCameraBase.cpp:348-366 | nothing for an empty queue, otherwise its last frame |
| CameraCapture.LatestAfterBufferedIsArrival | src/Interfaces/Camera/GSCameraBase/GSCameraBase.cpp:348-366 | right after an arrival the latest frame is that arrival |
| CameraBase.GSCameraBase.constructor | src/Interfaces/Camera/GSCameraBase/GSCameraBase.h:27-34 | the initial flags, an empty queue, maximum 100 |
| CameraBase.GSCameraBase.OpenCamera | src/Interfaces/Camera/GSCameraBase/GSCameraBase.cpp:13-71 | agrees with `CameraCapture.OpenCamera` |
| CameraBase.GSCameraBase.ConfigureTriggerMode | src/Interfaces/Camera/GSCameraBase/GSCameraBase.cpp:465-494 | accepts only FREE_RUNNING on an attached camera with a generated configuration |
| CameraBase.GSCameraBase.ReconfigureForActiveStream | src/Interfaces/Camera/GSCameraBase/GSCameraBase.cpp:640-736 | agrees with `CameraCapture.ReconfigureForActiveStream` |
| CameraBase.GSCameraBase.InitializeCamera | src/Interfaces/Camera/GSCameraBase/GSCameraBase.cpp:73-91 | agrees with `CameraCapture.InitializeCamera` |
| CameraBase.GSCameraBase.SetTriggerMode | src/Interfaces/Camera/GSCameraBase/GSCameraBase.cpp:200-216 | agrees with `CameraCapture.SetTriggerMode` |
| CameraBase.GSCameraBase.StartContinuousCapture | src/Interfaces/Camera/GSCameraBase/GSCameraBase.cpp:218-256 | agrees with `CameraCapture.StartContinuousCapture` |
| CameraBase.GSCameraBase.StopContinuousCapture | src/Interfaces/Camera/GSCameraBase/GSCameraBase.cpp:258-269 | agrees with `CameraCapture.StopContinuousCapture` |
| CameraBase.GSCameraBase.SwitchStream | src/Interfaces/Camera/GSCameraBase/GSCameraBase.cpp:271-346 | agrees with `CameraCapture.SwitchStream` |
| CameraBase.GSCameraBase.AddFrameToBuffer | src/Interfaces/Camera/GSCameraBase/GSCameraBase.cpp:535-547 | the queue becomes `Buffered` of the old one |
| CameraBase.GSCameraBase.RequestComplete | src/Interfaces/Camera/GSCameraBase/GSCameraBase.cpp:549-592 | a frame goes to the queue iff external trigger and capturing, otherwise it becomes the latest frame |
| CameraBase.GSCameraBase.GetLatestFrame | src/Interfaces/Camera/GSCameraBase/GSCameraBase.cpp:348-366 | returns `Latest` of the queue and empties it |
| CameraBase.GSCameraBase.GetAllAvailableFrames | src/Interfaces/Camera/GSCameraBase/GSCameraBase.cpp:368-380 | returns the whole queue oldest first and empties it |
| CameraBase.GSCameraBase.HasFramesAvailable | src/Interfaces/Camera/GSCameraBase/GSCameraBase.cpp:382-386 | true iff the queue is non-empty |
| CameraBase.GSCameraBase.GetFrameQueueSize | src/Interfaces/Camera/GSCameraBase/GSCameraBase.cpp:388-392 | the queue length |
| CameraBase.GSCameraBase.ClearFrameBuffer | src/Interfaces/Camera/GSCameraBase/GSCameraBase.cpp:394-401 | empties the queue only |
| CameraBase.GSCameraBase.SetMaxFrameBuffer | src/Interfaces/Camera/GSCameraBase/GSCameraBase.h:251-254 | stores the maximum only |
| Raw10.UnpackPixel | src/Interfaces/Camera/GSCameraBase/GSCameraBase.cpp:611-629 | a decoded pixel is below 1024 (fits in 10 bits) |
| Raw10.UnpackPixelFields | src/Interfaces/Camera/GSCameraBase/GSCameraBase.cpp:611-629 | a pixel's high eight bits are its byte; its low two bits are bits 2k, 2k+1 of the fifth byte |
| Raw10.PackGroup | src/Interfaces/Camera/GSCameraBase/GSCameraBase.cpp:596 | the packing of four 10-bit pixels is five bytes |
| Raw10.UnpackInvertsPack | src/Interfaces/Camera/GSCameraBase/GSCameraBase.cpp:611-629 | unpacking a packed group gives back the four pixels |
| Raw10.PackInvertsUnpack | src/Interfaces/Camera/GSCameraBase/GSCameraBase.cpp:611-629 | every five-byte group is the packing of what it decodes to |
| Raw10.UnpackGroup | src/Interfaces/Camera/GSCameraBase/GSCameraBase.cpp:609-630 | one group writes those of its four pixels that lie inside the width, each decoded from it, and nothing else |
| Raw10.CoversGroup | src/Interfaces/Camera/GSCameraBase/GSCameraBase.cpp:603-609 | when the buffer covers every row, the group holding pixel (x, y) lies inside it |
| Raw10.CoversRow | src/Interfaces/Camera/GSCameraBase/GSCameraBase.cpp:603-609 | when the buffer covers every row, all groups of row y lie inside it |
| Raw10.UnpackRow | src/Interfaces/Camera/GSCameraBase/GSCameraBase.cpp:603-631 | every pixel of the row starting at `row` is decoded from its group; the other rows are untouched |
| Raw10.UnpackRows | src/Interfaces/Camera/GSCameraBase/GSCameraBase.cpp:594-632 | every pixel (x, y) is decoded from the group at y·stride + 5·(x / 4), and only pixels inside the width are written |
| Raw10.ScaleTo8Bit | src/Interfaces/Camera/GSCameraBase/GSCameraBase.cpp:634-636 | v / 4 rounded to nearest with ties to even, within half a step; 1022 and 1023 saturate to 255 |
| Raw10.ScaleTo8BitMonotone | src/Interfaces/Camera/GSCameraBase/GSCameraBase.cpp:634-636 | the scaling keeps the order of intensities |
| Raw10.ScaledPixelNearHighByte | src/Interfaces/Camera/GSCameraBase/GSCameraBase.cpp:611-636 | an 8-bit pixel is its high byte or one more |
| Raw10.ConvertTo8Bit | src/Interfaces/Camera/GSCameraBase/GSCameraBase.cpp:634-636 | each output pixel is `ScaleTo8Bit` of the input pixel |
| Raw10.Unpack10BitBayer | src/Interfaces/Camera/GSCameraBase/GSCameraBase.cpp:594-639 | a height-by-width 8-bit image, pixel (x, y) the scaled value decoded from its group |
| SimulatedCamera.Fresh | src/Common/Camera/camera_hardware.h:185-188 | ImagesLoaded with both counters 0 |
| SimulatedCamera.NextFrame | src/Common/Camera/camera_hardware.cpp:51-114 | no image only from the sentinel state; ball-gone is absorbing with image 3; static frames alternate |
| SimulatedCamera.Run | src/Common/Camera/camera_hardware.cpp:51-114 | n calls give n results |
| SimulatedCamera.SimulatedSequence | src/Common/Camera/camera_hardware.cpp:57-104 | from a fresh state: image 0, fifteen alternating static frames 1,0,…,1, the pre-hit image 2, then image 3 forever |
| SimulatedCamera.ResolutionFor | src/Common/Camera/camera_hardware.cpp:171-460 | global-shutter models use both overrides if positive, else 1456×1088, with video 1080 high and as wide; HQ and PiCam2 overrides; PiCam13 and the default |
| SimulatedCamera.CameraHardware.constructor | src/Common/Camera/camera_hardware.cpp:40-49 | a fresh simulation, initialized, resolution from `ResolutionFor` |
| SimulatedCamera.CameraHardware.InitCameraParameters | src/Common/Camera/camera_hardware.cpp:116-484 | sets the resolutions to `ResolutionFor` and marks the camera initialized |
| SimulatedCamera.CameraHardware.GetNextFrame | src/Common/Camera/camera_hardware.cpp:51-114 | agrees with `NextFrame` |
| SimulatedCamera.CameraHardware.PrepareToTakeVideo | src/Common/Camera/camera_hardware.cpp:487-531 | resets the simulation to a fresh state and returns true |
| SimulatedCamera.CameraHardware.PrepareToTakePhoto | src/Common/Camera/camera_hardware.cpp:534-580 | resets the simulation to a fresh state and returns true |
| SimulatedCamera.CameraHardware.TakePhoto | src/Common/Camera/camera_hardware.cpp:620-707 | returns an empty image |
| ImageDomain.DefaultBallPosition | src/Interfaces/ImageAnalysis/domain/value_objects.hpp:42-46 | the default position is not valid |
| ImageDomain.MakeBallPosition | src/Interfaces/ImageAnalysis/domain/value_objects.hpp:49-56 | succeeds iff confidence is in [0, 1] and the radius is non-negative; valid iff both are positive |
| ImageDomain.DistanceSquared | src/Interfaces/ImageAnalysis/domain/value_objects.hpp:64-69 | the square of the distance, never negative |
| ImageDomain.IsNearlyEqual | src/Interfaces/ImageAnalysis/domain/value_objects.hpp:72-79 | a negative tolerance is an error; otherwise true iff the distance is within the tolerance |
| ImageDomain.NearlyEqualProperties | src/Interfaces/ImageAnalysis/domain/value_objects.hpp:64-79 | reflexive, symmetric, and monotone in the tolerance |
| ImageDomain.ImageBuffer.TimeDifferenceFrom | src/Interfaces/ImageAnalysis/domain/value_objects.hpp:133-136 | adding the other timestamp gives this one |
| ImageDomain.DefaultImageBuffer | src/Interfaces/ImageAnalysis/domain/value_objects.hpp:116 | the default buffer is not valid |
| ImageDomain.MakeImageBuffer | src/Interfaces/ImageAnalysis/domain/value_objects.hpp:118-149 | succeeds iff the data is non-empty, and then the buffer is valid |
| ImageDomain.BallStateToString | src/Interfaces/ImageAnalysis/domain/value_objects.hpp:166-176 | the name of each ball state |
| ImageDomain.BallStateNamesRoundTrip | src/Interfaces/ImageAnalysis/domain/value_objects.hpp:166-176 | reading a name back gives the state |
| ImageDomain.BallStateNamesDistinct | src/Interfaces/ImageAnalysis/domain/value_objects.hpp:166-176 | different states have different names |
| ImageDomain.GetConfidenceLevel | src/Interfaces/ImageAnalysis/domain/value_objects.hpp:201-212 | outside [0, 1] is an error; each band maps to its level, in both directions |
| ImageDomain.ConfidenceLevelMonotone | src/Interfaces/ImageAnalysis/domain/value_objects.hpp:201-212 | a higher confidence never gets a lower level |
| ImageDomain.ConfidenceLevelToString | src/Interfaces/ImageAnalysis/domain/value_objects.hpp:217-228 | the name of each level |
| ImageDomain.ConfidenceLevelNamesRoundTrip | src/Interfaces/ImageAnalysis/domain/value_objects.hpp:217-228 | reading a name back gives the level |
| ImageDomain.ConfidenceLevelNamesDistinct | src/Interfaces/ImageAnalysis/domain/value_objects.hpp:217-228 | different levels have different names |
| AnalysisResults.TeedBallResult.GetConfidenceLevel | src/Interfaces/ImageAnalysis/domain/analysis_results.hpp:40-43 | fails outside [0, 1]; Medium or above iff confidence ≥ 0.5 |
| AnalysisResults.DefaultTeedBallResult | src/Interfaces/ImageAnalysis/domain/analysis_results.hpp:28-30 | ABSENT, no position, confidence 0, no ball, level VERY_LOW |
| AnalysisResults.MovementResult.GetConfidenceLevel | src/Interfaces/ImageAnalysis/domain/analysis_results.hpp:60-63 | fails outside [0, 1]; Medium or above iff confidence ≥ 0.5 |
| AnalysisResults.FlightAnalysisResult.GetConfidenceLevel | src/Interfaces/ImageAnalysis/domain/analysis_results.hpp:97-100 | fails outside [0, 1]; Medium or above iff confidence ≥ 0.5 |
| AnalysisResults.ValidMotionDataIsAtLeastMedium | src/Interfaces/ImageAnalysis/domain/analysis_results.hpp:87-100 | valid spin or velocity data always comes with a level of Medium or above |
| AnalysisResults.DefaultFlightAnalysisResult | src/Interfaces/ImageAnalysis/domain/analysis_results.hpp:69-95 | the default has no multiple balls and no valid spin or velocity data |
| AnalysisResults.AnalysisResult.Success | src/Interfaces/ImageAnalysis/domain/analysis_results.hpp:114-117 | a success carrying the value and no error |
| AnalysisResults.AnalysisResult.Failure | src/Interfaces/ImageAnalysis/domain/analysis_results.hpp:119-122 | a failure carrying the error and the default value |
| ImageAnalyzer.BestIndex | src/Interfaces/ImageAnalysis/infrastructure/opencv_image_analyzer.cpp:289-316 | the first candidate of maximal score: highest confidence, or nearest to the expected position |
| ImageAnalyzer.BestIndexUnique | src/Interfaces/ImageAnalysis/infrastructure/opencv_image_analyzer.cpp:289-316 | any first maximal candidate is the one `BestIndex` picks |
| ImageAnalyzer.BestIndexExtend | src/Interfaces/ImageAnalysis/infrastructure/opencv_image_analyzer.cpp:296-314 | a further candidate becomes the best only when it scores strictly higher, so ties keep the earlier one |
| ImageAnalyzer.OpenCVImageAnalyzer.SelectBestCandidate | src/Interfaces/ImageAnalysis/infrastructure/opencv_image_analyzer.cpp:280-319 | the default position for no candidates, otherwise the candidate at `BestIndex` |
| ImageAnalyzer.OpenCVImageAnalyzer.NearestCandidate | src/Interfaces/ImageAnalysis/infrastructure/opencv_image_analyzer.cpp:291-304 | the first candidate at the least distance from the expected position |
| ImageAnalyzer.OpenCVImageAnalyzer.MostConfidentCandidate | src/Interfaces/ImageAnalysis/infrastructure/opencv_image_analyzer.cpp:305-316 | the first candidate of highest confidence |
| ImageAnalyzer.Confident | src/Interfaces/ImageAnalysis/infrastructure/opencv_image_analyzer.cpp:144-150 | keeps exactly the candidates with confidence ≥ 0.3, as a sub-multiset |
| ImageAnalyzer.SortByX | src/Interfaces/ImageAnalysis/infrastructure/opencv_image_analyzer.cpp:153-155 | a permutation sorted by x ascending |
| ImageAnalyzer.InsertByX | src/Interfaces/ImageAnalysis/infrastructure/opencv_image_analyzer.cpp:153-155 | inserting into a sorted list keeps it sorted and adds exactly that element |
| ImageAnalyzer.CreateErrorResult | src/Interfaces/ImageAnalysis/infrastructure/opencv_image_analyzer.cpp:511-520 | no ball, no position, confidence 0, the message as debug info |
| ImageAnalyzer.CreateFlightErrorResult | src/Interfaces/ImageAnalysis/infrastructure/opencv_image_analyzer.cpp:533-541 | no balls, no valid data, confidence 0, the message as debug info |
| ImageAnalyzer.IsValidBallPosition | src/Interfaces/ImageAnalysis/infrastructure/opencv_image_analyzer.cpp:368-373 | true iff the centre lies in the image and the position is valid |
| ImageAnalyzer.OpenCVImageAnalyzer.constructor | src/Interfaces/ImageAnalysis/infrastructure/opencv_image_analyzer.hpp:81-95 | the default Hough parameters and radius limits 10 and 100 |
| ImageAnalyzer.OpenCVImageAnalyzer.SetHoughParameters | src/Interfaces/ImageAnalysis/infrastructure/opencv_image_analyzer.cpp:205-218 | any non-positive argument changes nothing; otherwise all three are stored |
| ImageAnalyzer.OpenCVImageAnalyzer.SetRadiusLimits | src/Interfaces/ImageAnalysis/infrastructure/opencv_image_analyzer.cpp:220-232 | rejects non-positive limits or min ≥ max, changing nothing; otherwise stores both |
| ImageAnalyzer.OpenCVImageAnalyzer.CalculateConfidence | src/Interfaces/ImageAnalysis/infrastructure/opencv_image_analyzer.cpp:321-366 | in [0, 1]; 0 for an empty image; 0.1 when the circle is not inside; at most 0.8 inside; exactly 0.8 in the radius window away from the edges |
| ImageAnalyzer.DetectedCircleNeverVeryHigh | src/Interfaces/ImageAnalysis/infrastructure/opencv_image_analyzer.cpp:321-366 | a computed confidence never reaches the VERY_HIGH band |
| ImageAnalyzer.OpenCVImageAnalyzer.Detected | src/Interfaces/ImageAnalysis/infrastructure/opencv_image_analyzer.cpp:252-265 | the candidate for a circle keeps its centre and radius, is marked "opencv_hough", and its confidence is `CalculateConfidence` of it |
| ImageAnalyzer.OpenCVImageAnalyzer.ScoredAll | src/Interfaces/ImageAnalysis/infrastructure/opencv_image_analyzer.cpp:250-268 | one candidate per circle, in order, each `Detected` of its circle, with confidence between 0 and 0.8 |
| ImageAnalyzer.OpenCVImageAnalyzer.DetectCircles | src/Interfaces/ImageAnalysis/infrastructure/opencv_image_analyzer.cpp:235-277 | the loop over the Hough circles yields exactly `ScoredAll` of them |
| ImageAnalyzer.KeepConfident | src/Interfaces/ImageAnalysis/infrastructure/opencv_image_analyzer.cpp:143-150 | the filtering loop keeps exactly `Confident` of the candidates |
| ImageAnalyzer.OpenCVImageAnalyzer.AnalyzeTeedBall | src/Interfaces/ImageAnalysis/infrastructure/opencv_image_analyzer.cpp:37-74 | invalid image: the error result; no circles: ABSENT, confidence 0; otherwise the best of the scored candidates, TEED iff its confidence ≥ 0.5; the confidence is never above 0.8 |
| ImageAnalyzer.OpenCVImageAnalyzer.DetectBallReset | src/Interfaces/ImageAnalysis/infrastructure/opencv_image_analyzer.cpp:184-203 | RESET iff the image is valid, a circle was found and the best scored candidate lies more than 100 pixels from the previous position; the confidence is never above 0.8 |
| ImageAnalyzer.OpenCVImageAnalyzer.AnalyzeBallFlight | src/Interfaces/ImageAnalysis/infrastructure/opencv_image_analyzer.cpp:123-182 | the kept balls are the scored candidates of confidence ≥ 0.3, sorted by x; valid velocity iff at least two are kept |

## Left out

- Threads, mutexes and atomics are not modelled as such. Each control method and each half of the worker body is one atomic step.
- Several methods lock `status_mutex_` and then call a function that locks it again: `start()` via `resume()` and `changeStatus()`, `stop()`, `pause()`, and `GSTaskBase::stop()` via `isRunning()`. A non-recursive `std::mutex` makes that a self-deadlock (undefined behaviour). A sequential model cannot show a deadlock, so these calls are modelled as if they completed.
- The 10 ms and 100 ms sleeps and the steady clock are not modelled. Elapsed time, poll counts and the moment the worker leaves `execute()` are parameters.
- `generateAgentId`/`generateTaskId`/`generateManagerId` use the clock and a random generator, so the id is a constructor argument. `getRuntime` and `getIterationsPerSecond` are left out because they depend on the clock and floating point.
- `cleanup()` is modelled as returning: the worker wrappers catch only `std::exception` around it, so a throw of another type escapes the thread function and ends in `std::terminate`. A `std::exception` thrown there is only logged. `InitThrows` and `ExecThrows` cover every exception type, since `catch (...)` follows around `initialize()` and `execute()`.
- Logging, the status-change and error callbacks (only the sequence of statuses they observe is kept), and the pre/post hooks (their results are parameters) are not modelled.
- The child side of `GSTaskBase` is not modelled: `childProcessEntryPoint`, the signal handlers and the global task pointer. `fork`, `waitpid` and `kill` enter only through their results and the signals recorded.
- libcamera is not modelled: device enumeration, configuration, buffer allocation, mmap and `convertBufferToMat`. `openCamera`, `reconfigureForActiveStream` and the start and stop calls see only the outcome of those calls.
- `closeCamera` and `captureFrame` are left out: they only release libcamera objects, or wait on a condition variable for a frame.
- `requestComplete` is reduced to its routing decision: queue or latest frame.
- Image contents, the Hough transform itself, `PreprocessImage`, `DetectMovement`, optical flow, movement magnitude and the velocity arithmetic are left out because they are floating-point image processing. The circles the Hough transform finds are an input; preprocessing keeps the image size, so they are scored against the input image.
- The JPEG test images are not modelled. The simulated camera returns the index of the test image instead.
- Only the Unix build of `prepareToTakeVideo`, `prepareToTakePhoto` and `take_photo` is modelled.
- Camera models other than the global-shutter, HQ, PiCam 2 and PiCam 1.3 branches fall into the default branch; focal lengths and other optics are left out.
- ImageDomain.MakeBallPosition: does not model the NaN and infinity checks, because reals have neither.
- ImageDomain.IsNearlyEqual: compares squared distance with squared tolerance instead of `sqrt`. That is the same order for non-negative values, but not the same double rounding.
- Raw10.ScaleTo8Bit: models round-half-to-even on exact values. OpenCV computes in single precision, which is exact for these small values.
- ImageAnalyzer.SortByX: states sorted and a permutation. It does not reproduce the exact order `std::sort` gives to equal x values, which the standard leaves unspecified.
- ImageAnalyzer.OpenCVImageAnalyzer.AnalyzeBallFlight: states that velocity is present iff two or more balls are kept. The velocity value itself is left out.
- ImageAnalyzer.OpenCVImageAnalyzer.DetectBallReset: marks RESET on distance alone. The source does the same and does not look at the candidate's confidence.

## Findings

The classes keep the behaviour as written; each corrected definition stands beside the function that models the source, in the same module.

| source | as written | input that shows it | evidently intended | confidence | as-written member | corrected member |
|---|---|---|---|---|---|---|
| src/Infrastructure/DataStructures/FrameBuffer.h:64-77 | on a full buffer `addFrame` advances the tail and returns without storing the new frame | capacity 3, add F1..F5: only F4 can be read | drop the oldest frame and store the new one, as the doc comment says | not executed | FrameBuffers.ThreeSlotsFiveFramesLeavesFourth | FrameBuffers.OverwritingKeepsNewFrame |
| src/Infrastructure/DataStructures/FrameBuffer.h:126-129 | `isFull()` tests (tail + 1) mod N = head, which holds when exactly one frame is held | capacity 3 with one frame: `isFull()` is true, yet the next add stores its frame | true iff the next add would drop a frame, i.e. size = N − 1 | not executed | FrameBuffers.IsFullDisagreesWithThreeSlots | FrameBuffers.IsFullCorrected |
| src/Application/AppAgents/AgentBase/GSAgentBase.cpp:56-58 | `stop()` returns at once on Failed and Completed without joining, and `start()` then assigns a new `std::thread` over the finished but still joinable one | an agent whose `execute()` throws, then `stop()` and `start()`, as the restart of failed agents does: `std::terminate` | join a finished thread before creating the next | not executed; medium | Lifecycle.FailedWorkerCannotBeRestarted | Lifecycle.CorrectedStartRestartsFailedWorker |
| src/Application/Managers/ManagerBase/GSManagerBase.cpp:81-89 | the manager's `stop()` waits at most 2 s and never joins the thread | `start()`, `stop()`, `start()` on one manager: the second `start()` assigns over a joinable thread | join the thread before the next `start()` creates one | not executed; medium | Lifecycle.StoppedManagerCannotBeRestarted | Lifecycle.CorrectedStartRestartsStoppedManager |
| src/Application/AppAgents/AgentBase/GSAgentBase.cpp:227-245 | the worker reports Initializing and Running without looking at the stop flag | `start()`, then `stop()` before the new thread is scheduled: the unit ends Running with no thread, and every later `start()` returns false | a stop that has returned leaves the unit not Running | not executed; low, depends on scheduling | Lifecycle.StopBeforeWorkerBeginsLeavesRunning | Lifecycle.CorrectedWorkerLetsStopStand |
| src/Infrastructure/TaskProcess/GSTaskBase.cpp:40-44 | `start()` refuses only in Running | `start()`, `stop()`, then `start()` before the first child has exited: the new pid replaces the old one, which is then never reaped or signalled | refuse, or wait, while a child is being stopped | not executed; low | ProcessStatusMachine.RestartWhileStoppingForgetsChild | ProcessStatusMachine.CorrectedStartKeepsStoppingChild |
