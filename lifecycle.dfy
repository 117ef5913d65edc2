/** The unit-of-work lifecycle shared, copy for copy, by GSAgentBase, GSTask and
    GSManagerBase: a status, the stop and pause flags, the is-running flag, two
    64-bit counters, a timeout and one worker thread.

    Threads are abstracted to atomic steps. The worker body (the agent,
    task or manager "wrapper") is split at the point where `execute()` runs:
    `WorkerBegin` covers everything up to the call of `execute()`, `WorkerEnd`
    everything after it returns or throws. `Worker` records where the
    thread is: not created, created but not yet scheduled, inside
    `execute()`, or finished and still joinable. Joining a thread runs
    whatever is left of its body. What `initialize()` and `execute()` do is
    given as an outcome, since only their result matters to the lifecycle.

    Two pieces of instrumentation are kept beside the source's state:
    `changes`, the statuses passed to `changeStatus` in order (what a status
    callback observes), and `cleanups`, the number of `cleanup()` calls. */
module Lifecycle {
  import opened Outcomes

  /** 2^64: the counters are `std::atomic<uint64_t>`. */
  const U64: nat := 0x1_0000_0000_0000_0000

  datatype Status = NotStarted | Initializing | Running | Paused | Stopping | Completed | Failed | Timeout

  datatype Priority = Low | Normal | High | Critical
  {
    /** The enumerator's underlying value. */
    function Value(): (v: int)
      ensures v == 0 <==> this == Low
      ensures v == 1 <==> this == Normal
      ensures v == 2 <==> this == High
      ensures v == 3 <==> this == Critical
    {
      match this
      case Low => 0
      case Normal => 1
      case High => 2
      case Critical => 3
    }
  }

  datatype Worker = NoThread | Pending | InExecute | Exited
  {
    /** `std::thread::joinable()`: a thread was created and not joined. */
    predicate Joinable() {
      this != NoThread
    }
  }

  datatype InitOutcome = InitOk | InitFalse | InitThrows

  datatype ExecOutcome = ExecReturns | ExecThrows

  /** A `std::chrono::milliseconds` value, where `milliseconds::max()` is the
      "no limit" sentinel. */
  datatype Limit = Unbounded | Millis(ms: int)

  /** The two atomics `handlePause` reads at one check of its loop. */
  datatype PauseFlags = PauseFlags(pause: bool, stop: bool)

  datatype Unit = Unit(
    status: Status,
    shouldStop: bool,
    shouldPause: bool,
    running: bool,
    iterations: nat,
    errors: nat,
    timeout: Limit,
    priority: Priority,
    worker: Worker,
    changes: seq<Status>,
    cleanups: nat)
  {
    /** `is_running_` is true exactly while the worker is inside `execute()`,
        and the counters fit in 64 bits. */
    predicate Consistent() {
      running == (worker == InExecute) && iterations < U64 && errors < U64
    }
  }

  /** The state the constructors leave. */
  function Created(priority: Priority): Unit {
    Unit(NotStarted, false, false, false, 0, 0, Unbounded, priority, NoThread, [], 0)
  }

  /** `changeStatus`: the status is replaced and the callback sees the new one. */
  function ChangeStatus(u: Unit, s: Status): Unit {
    u.(status := s, changes := u.changes + [s])
  }

  /** The statuses in which `stop()` returns at once. */
  predicate StopIgnores(s: Status) {
    s == NotStarted || s == Completed || s == Failed
  }

  /** What `start()` needs to be defined: assigning a new `std::thread` to a
      joinable one calls `std::terminate`, so a spawn that succeeds must find
      no joinable thread. A spawn that throws never reaches the assignment. */
  predicate CanStart(u: Unit, spawnOk: bool) {
    u.status == Running || u.status == Paused || !spawnOk || !u.worker.Joinable()
  }

  function Pause(u: Unit): (v: Unit)
    requires u.Consistent()
    ensures v.Consistent() && v.worker == u.worker
    ensures u.status == Running ==> v.status == Paused && v.shouldPause && v.changes == u.changes + [Paused]
    ensures u.status != Running ==> v == u
  {
    if u.status == Running then ChangeStatus(u.(shouldPause := true), Paused) else u
  }

  function Resume(u: Unit): (v: Unit)
    requires u.Consistent()
    ensures v.Consistent() && v.worker == u.worker
    ensures u.status == Paused ==> v.status == Running && !v.shouldPause && v.changes == u.changes + [Running]
    ensures u.status != Paused ==> v == u
  {
    if u.status == Paused then ChangeStatus(u.(shouldPause := false), Running) else u
  }

  function Start(u: Unit, spawnOk: bool): (r: (Unit, bool))
    requires u.Consistent() && CanStart(u, spawnOk)
    ensures r.0.Consistent()
    ensures u.status == Running ==> r == (u, false)
    ensures u.status == Paused ==> r == (Resume(u), true) && r.0.status == Running && r.0.worker == u.worker
    ensures u.status != Running && u.status != Paused ==>
              !r.0.shouldStop && !r.0.shouldPause && r.0.iterations == 0 && r.0.errors == 0
              && (r.1 <==> spawnOk)
              && (spawnOk ==> r.0.worker == Pending && r.0.status == u.status)
              && (!spawnOk ==> r.0.worker == u.worker && r.0.status == Failed)
  {
    if u.status == Running then (u, false)
    else if u.status == Paused then (Resume(u), true)
    else Respawn(u, spawnOk)
  }

  /** The part of `start()` after its two status tests: flags and counters
      reset, then a new thread, or Failed when its creation throws. */
  function Respawn(u: Unit, spawnOk: bool): (Unit, bool)
    requires u.Consistent() && (spawnOk ==> !u.worker.Joinable())
  {
    var reset := u.(shouldStop := false, shouldPause := false, iterations := 0, errors := 0);
    if spawnOk then (reset.(worker := Pending), true)
    else (ChangeStatus(reset, Failed), false)
  }

  /** The worker body up to the call of `execute()`. */
  function WorkerBegin(u: Unit, init: InitOutcome): (v: Unit)
    requires u.Consistent() && u.worker == Pending
    ensures v.Consistent()
    ensures v.worker == InExecute <==> init == InitOk
    ensures init != InitOk ==> v.worker == Exited && v.status == Failed
    ensures v.changes == u.changes + [Initializing, if init == InitOk then Running else Failed]
    ensures v.cleanups == u.cleanups + (if init == InitThrows then 1 else 0)
  {
    var initializing := ChangeStatus(u.(running := true), Initializing);
    match init
    case InitOk => ChangeStatus(initializing.(worker := InExecute), Running)
    case InitFalse => ChangeStatus(initializing, Failed).(running := false, worker := Exited)
    case InitThrows =>
      ChangeStatus(initializing, Failed).(cleanups := u.cleanups + 1, running := false, worker := Exited)
  }

  /** The worker body from the return (or throw) of `execute()` to its end. */
  function WorkerEnd(u: Unit, exec: ExecOutcome): (v: Unit)
    requires u.Consistent() && u.worker == InExecute
    ensures v.Consistent() && v.worker == Exited && !v.running
    ensures v.cleanups == u.cleanups + 1
    ensures exec == ExecThrows ==> v.status == Failed
    ensures exec == ExecReturns && !u.shouldStop ==> v.status == Completed
    ensures exec == ExecReturns && u.shouldStop ==> v.status == u.status && v.changes == u.changes
  {
    var ended := match exec
      case ExecReturns => if !u.shouldStop then ChangeStatus(u, Completed) else u
      case ExecThrows => ChangeStatus(u, Failed);
    ended.(cleanups := u.cleanups + 1, running := false, worker := Exited)
  }

  /** The whole worker body, as one step. */
  function WorkerRun(u: Unit, init: InitOutcome, exec: ExecOutcome): (v: Unit)
    requires u.Consistent() && u.worker == Pending
    ensures v.Consistent() && v.worker == Exited
  {
    var begun := WorkerBegin(u, init);
    if begun.worker == InExecute then WorkerEnd(begun, exec) else begun
  }

  /** `join()`: whatever is left of the worker body runs, then the thread is
      no longer joinable. */
  function Join(u: Unit, init: InitOutcome, exec: ExecOutcome): (v: Unit)
    requires u.Consistent()
    ensures v.Consistent() && v.worker == NoThread && !v.running
  {
    var finished := match u.worker
      case Pending => WorkerRun(u, init, exec)
      case InExecute => WorkerEnd(u, exec)
      case _ => u;
    finished.(worker := NoThread)
  }

  /** `stop()` of the agent and task bases: unless the status is NotStarted,
      Completed or Failed, it sets Stopping, raises the stop flag, clears the
      pause flag and joins the worker. */
  function StopJoining(u: Unit, init: InitOutcome, exec: ExecOutcome): (v: Unit)
    requires u.Consistent()
    ensures v.Consistent()
    ensures StopIgnores(u.status) ==> v == u
    ensures !StopIgnores(u.status) ==> v.shouldStop && !v.shouldPause && v.worker == NoThread
    ensures !StopIgnores(u.status) ==> |v.changes| > |u.changes| && v.changes[|u.changes|] == Stopping
  {
    if StopIgnores(u.status) then u
    else
      var flagged := RaiseStop(u);
      if flagged.worker.Joinable() then Join(flagged, init, exec) else flagged
  }

  /** What both kinds of `stop()` do before they wait: Stopping reported,
      the stop flag raised and the pause flag cleared. */
  function RaiseStop(u: Unit): Unit {
    ChangeStatus(u, Stopping).(shouldStop := true, shouldPause := false)
  }

  /** The number of 10 ms sleeps of the timed wait before the elapsed time
      reaches a timeout of `ms` milliseconds, when each sleep takes exactly
      10 ms. */
  function PollBudget(ms: int): (n: nat)
    ensures ms <= 0 ==> n == 0
    ensures ms > 0 ==> 10 * (n - 1) < ms <= 10 * n
  {
    if ms <= 0 then 0 else (ms + 9) / 10
  }

  /** The timed wait: poll `isRunning()` every 10 ms until it is false or the
      timeout has elapsed, then report `!isRunning()`. The worker, if inside
      `execute()`, leaves it after `exitAfter` sleeps (0: not during this
      wait). */
  function TimedWait(u: Unit, ms: int, exitAfter: nat, exec: ExecOutcome): (r: (Unit, bool))
    requires u.Consistent()
    ensures r.0.Consistent() && r.0.worker.Joinable() == u.worker.Joinable()
    ensures r.1 <==> !r.0.running
    ensures !u.running ==> r == (u, true)
  {
    if u.running && 0 < exitAfter <= PollBudget(ms) then (WorkerEnd(u, exec), true)
    else (u, !u.running)
  }

  function WaitForCompletion(u: Unit, limit: Limit, init: InitOutcome, exec: ExecOutcome, exitAfter: nat): (r: (Unit, bool))
    requires u.Consistent()
    ensures r.0.Consistent()
    ensures !u.worker.Joinable() ==> r == (u, true)
    ensures u.worker.Joinable() && limit.Unbounded? ==> r.1 && !r.0.worker.Joinable()
    ensures limit.Millis? ==> (r.1 <==> !r.0.running) && r.0.worker.Joinable() == u.worker.Joinable()
  {
    if !u.worker.Joinable() then (u, true)
    else if limit.Unbounded? then (Join(u, init, exec), true)
    else TimedWait(u, limit.ms, exitAfter, exec)
  }

  /** `stop()` of the manager base: the same guard and flags, but instead of
      joining it waits at most 2 s for the worker to leave `execute()`. */
  function StopWaiting(u: Unit, exitAfter: nat, exec: ExecOutcome): (v: Unit)
    requires u.Consistent()
    ensures v.Consistent() && v.worker.Joinable() == u.worker.Joinable()
    ensures StopIgnores(u.status) ==> v == u
    ensures !StopIgnores(u.status) ==> v.shouldStop && !v.shouldPause
  {
    if StopIgnores(u.status) then u
    else
      var flagged := RaiseStop(u);
      if flagged.worker.Joinable() then TimedWait(flagged, 2000, exitAfter, exec).0 else flagged
  }

  /** `checkTimeout()` with the elapsed time since the worker began. */
  function CheckTimeout(u: Unit, elapsed: nat): (r: (Unit, bool))
    requires u.Consistent()
    ensures r.0.Consistent()
    ensures r.1 <==> u.timeout.Millis? && elapsed > u.timeout.ms
    ensures r.1 ==> r.0.status == Timeout && r.0.changes == u.changes + [Timeout]
    ensures !r.1 ==> r.0 == u
  {
    if u.timeout.Millis? && elapsed > u.timeout.ms then (ChangeStatus(u, Timeout), true) else (u, false)
  }

  /** One check of `handlePause`'s loop lets it return. */
  predicate Released(f: PauseFlags) {
    !f.pause || f.stop
  }

  /** The index of the first check that lets `handlePause` return, if any. */
  function FirstRelease(obs: seq<PauseFlags>): (r: Option<nat>)
    ensures r.Some? ==> r.value < |obs| && Released(obs[r.value])
    ensures r.Some? ==> forall j :: 0 <= j < r.value ==> !Released(obs[j])
    ensures r.None? ==> forall j :: 0 <= j < |obs| ==> !Released(obs[j])
  {
    if obs == [] then None
    else if Released(obs[0]) then Some(0)
    else match FirstRelease(obs[1..])
      case None => None
      case Some(k) => Some(k + 1)
  }

  /** A call of `pause()` then `resume()` on a running unit puts it back as it
      was; only the callback has seen two more changes. */
  lemma ResumeUndoesPause(u: Unit)
    requires u.Consistent() && u.status == Running && !u.shouldPause
    ensures Resume(Pause(u)) == u.(changes := u.changes + [Paused, Running])
  {
  }

  /** A worker whose `initialize()` returns false never gets `cleanup()`
      called; on every other path `cleanup()` runs exactly once, including
      when `initialize()` throws. */
  lemma CleanupRunsOnceUnlessInitFalse(u: Unit, init: InitOutcome, exec: ExecOutcome)
    requires u.Consistent() && u.worker == Pending
    ensures WorkerRun(u, init, exec).cleanups == u.cleanups + (if init == InitFalse then 0 else 1)
  {
  }

  /** A stop requested while the worker is inside `execute()`: when
      `execute()` then returns normally the status stays Stopping for good,
      never Completed, and no thread is left. */
  lemma StopDuringExecuteStaysStopping(u: Unit, init: InitOutcome)
    requires u.Consistent() && u.worker == InExecute && !StopIgnores(u.status)
    ensures var v := StopJoining(u, init, ExecReturns);
            v.status == Stopping && !v.running && v.worker == NoThread && Completed !in v.changes[|u.changes|..]
  {
    assert RaiseStop(u).changes[|u.changes|..] == [Stopping];
  }

  /** A stop that lands after `start()` but before the worker thread is
      scheduled is overwritten: the worker sets Initializing then Running,
      `execute()` sees the stop flag, and the unit is left Running with no
      thread behind it, so every later `start()` returns false. */
  lemma StopBeforeWorkerBeginsLeavesRunning(u: Unit)
    requires u.Consistent() && u.worker == Pending && !StopIgnores(u.status)
    ensures var v := StopJoining(u, InitOk, ExecReturns);
            v.status == Running && !v.running && v.worker == NoThread
            && CanStart(v, true) && Start(v, true) == (v, false)
  {
  }

  /** A worker that ended in Failed stays joinable: `stop()` ignores the
      Failed status, so the thread is never joined and a later `start()`
      would assign over a joinable thread. */
  lemma FailedWorkerCannotBeRestarted(u: Unit, exec: ExecOutcome, init: InitOutcome)
    requires u.Consistent() && u.worker == InExecute
    ensures var failed := WorkerEnd(u, ExecThrows);
            var stopped := StopJoining(failed, init, exec);
            stopped == failed && !CanStart(stopped, true)
  {
  }

  /** The manager's bounded stop never joins, so a manager whose thread was
      ever created can never be started afresh after it is stopped. */
  lemma StoppedManagerCannotBeRestarted(u: Unit, exitAfter: nat, exec: ExecOutcome)
    requires u.Consistent() && u.worker.Joinable() && !StopIgnores(u.status)
    ensures !CanStart(StopWaiting(u, exitAfter, exec), true)
  {
    var flagged := RaiseStop(u);
    if flagged.running && 0 < exitAfter <= PollBudget(2000) {
      assert StopWaiting(u, exitAfter, exec) == WorkerEnd(flagged, exec);
    }
  }

  /** `start()` as evidently intended: a thread left joinable by a worker
      that has finished (or, for the manager, by a stop that did not join) is
      joined after the status tests and before the new one is created, so a
      unit that is neither Running nor Paused can always be started again. */
  function StartJoiningFirst(u: Unit, spawnOk: bool, init: InitOutcome, exec: ExecOutcome): (r: (Unit, bool))
    requires u.Consistent()
    ensures r.0.Consistent()
    ensures CanStart(u, spawnOk) && !u.worker.Joinable() ==> r == Start(u, spawnOk)
    ensures u.status == Running || u.status == Paused ==> r == Start(u, spawnOk)
    ensures u.status != Running && u.status != Paused ==>
              (r.1 <==> spawnOk) && !r.0.shouldStop && r.0.iterations == 0 && r.0.errors == 0
              && r.0.worker == (if spawnOk then Pending else if u.worker.Joinable() then NoThread else u.worker)
  {
    if u.status == Running || u.status == Paused then Start(u, spawnOk)
    else if u.worker.Joinable() then Respawn(Join(u, init, exec), spawnOk)
    else Respawn(u, spawnOk)
  }

  /** With the join before the spawn, the worker that ended Failed (and that
      `stop()` ignored) is replaced by a new one. */
  lemma CorrectedStartRestartsFailedWorker(u: Unit, exec: ExecOutcome, init: InitOutcome)
    requires u.Consistent() && u.worker == InExecute
    ensures var stopped := StopJoining(WorkerEnd(u, ExecThrows), init, exec);
            var r := StartJoiningFirst(stopped, true, init, exec);
            r.1 && r.0.worker == Pending && r.0.cleanups == u.cleanups + 1
  {
  }

  /** With the join before the spawn, a manager stopped by the bounded wait
      can be started afresh, whether or not its worker left `execute()`
      within the 2 s. */
  lemma CorrectedStartRestartsStoppedManager(u: Unit, exitAfter: nat, exec: ExecOutcome, init: InitOutcome)
    requires u.Consistent() && u.worker.Joinable() && !StopIgnores(u.status)
    ensures var r := StartJoiningFirst(StopWaiting(u, exitAfter, exec), true, init, exec);
            r.1 && r.0.worker == Pending
  {
    var flagged := RaiseStop(u);
    if flagged.running && 0 < exitAfter <= PollBudget(2000) {
      assert StopWaiting(u, exitAfter, exec) == WorkerEnd(flagged, exec);
    }
  }

  /** The start of the worker body as evidently intended: a worker that finds
      the stop flag already raised leaves at once, without reporting
      Initializing or Running over the stop. */
  function WorkerBeginHonoringStop(u: Unit, init: InitOutcome): (v: Unit)
    requires u.Consistent() && u.worker == Pending
    ensures v.Consistent() && v.worker != Pending
    ensures !u.shouldStop ==> v == WorkerBegin(u, init)
    ensures u.shouldStop ==> v.status == u.status && v.changes == u.changes && v.worker == Exited
  {
    if u.shouldStop then u.(worker := Exited) else WorkerBegin(u, init)
  }

  /** With that worker, a stop that lands before the worker is scheduled
      stands: once the thread is joined the unit is Stopping, not Running,
      and the next `start()` creates a new thread. */
  lemma CorrectedWorkerLetsStopStand(u: Unit, init: InitOutcome)
    requires u.Consistent() && u.worker == Pending && !StopIgnores(u.status)
    ensures var v := WorkerBeginHonoringStop(RaiseStop(u), init).(worker := NoThread);
            v.status == Stopping && v.Consistent() && CanStart(v, true) && Start(v, true).1
  {
  }
}
