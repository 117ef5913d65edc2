/** The task base class GSTask: the lifecycle of one task run on its own
    worker thread. Each method is one atomic step of the shared lifecycle and is
    proved against the matching function of module Lifecycle, which carries the
    properties. */
module TaskLifecycle {
  import opened Outcomes
  import opened Lifecycle

  type TaskStatus = Status

  type TaskPriority = Priority

  class GSTask {
    const name: string
    const id: string
    var status: TaskStatus
    var priority: TaskPriority
    var shouldStop: bool
    var shouldPause: bool
    var running: bool
    var iterations: nat
    var errors: nat
    var timeout: Limit
    /** The `std::thread` member and how far its body has got. */
    var worker: Worker
    /** Statuses passed to `changeStatus`, in order. */
    ghost var changes: seq<TaskStatus>
    /** Number of calls of `cleanup()`. */
    ghost var cleanups: nat

    ghost function State(): Unit
      reads this
    {
      Unit(status, shouldStop, shouldPause, running, iterations, errors, timeout, priority, worker, changes, cleanups)
    }

    ghost predicate Valid()
      reads this
    {
      State().Consistent()
    }

    /** The identifier comes from the clock and a random generator in the
        source; here it is given. */
    constructor (name: string, id: string, priority: TaskPriority := Normal)
      ensures Valid() && State() == Created(priority)
      ensures this.name == name && this.id == id
    {
      this.name := name;
      this.id := id;
      status := NotStarted;
      this.priority := priority;
      shouldStop, shouldPause, running := false, false, false;
      iterations, errors := 0, 0;
      timeout := Unbounded;
      worker := NoThread;
      changes := [];
      cleanups := 0;
    }

    method ChangeStatus(s: TaskStatus)
      modifies this
      ensures State() == Lifecycle.ChangeStatus(old(State()), s)
    {
      status := s;
      changes := changes + [s];
    }

    method SetStatus(s: TaskStatus)
      requires Valid()
      modifies this
      ensures Valid() && State() == Lifecycle.ChangeStatus(old(State()), s)
    {
      ChangeStatus(s);
    }

    /** `start()`. `spawnOk` says whether creating the `std::thread`
        succeeded.
        The source holds `status_mutex_` while calling `resume()` and
        `changeStatus()`, which lock it again; this model treats the call as one
        atomic step. */
    method Start(spawnOk: bool) returns (ok: bool)
      requires Valid() && CanStart(State(), spawnOk)
      modifies this
      ensures Valid() && (State(), ok) == Lifecycle.Start(old(State()), spawnOk)
    {
      if status == Running {
        return false;
      }
      if status == Paused {
        Resume();
        return true;
      }
      shouldStop, shouldPause := false, false;
      iterations, errors := 0, 0;
      if spawnOk {
        worker := Pending;
        return true;
      }
      ChangeStatus(Failed);
      return false;
    }

    /** `stop()`. When a worker is joined, `init` and `exec` are the outcomes
        of whatever part of its body is still to run.
        The source calls `changeStatus()` while holding `status_mutex_`,
        which locks it again; this model treats the call as one atomic step. */
    method Stop(init: InitOutcome, exec: ExecOutcome)
      requires Valid()
      modifies this
      ensures Valid() && State() == StopJoining(old(State()), init, exec)
    {
      if StopIgnores(status) {
        return;
      }
      ChangeStatus(Stopping);
      shouldStop := true;
      shouldPause := false;
      if worker != NoThread {
        Join(init, exec);
      }
    }

    /** `pause()`. The source calls `changeStatus()` while holding `status_mutex_`,
        which locks it again; this model treats the call as one atomic step. */
    method Pause()
      requires Valid()
      modifies this
      ensures Valid() && State() == Lifecycle.Pause(old(State()))
    {
      if status == Running {
        shouldPause := true;
        ChangeStatus(Paused);
      }
    }

    method Resume()
      requires Valid()
      modifies this
      ensures Valid() && State() == Lifecycle.Resume(old(State()))
    {
      if status == Paused {
        shouldPause := false;
        ChangeStatus(Running);
      }
    }

    /** The worker body up to the call of `execute()`. */
    method WorkerBegin(init: InitOutcome)
      requires Valid() && worker == Pending
      modifies this
      ensures Valid() && State() == Lifecycle.WorkerBegin(old(State()), init)
    {
      running := true;
      ChangeStatus(Initializing);
      if init != InitOk {
        ChangeStatus(Failed);
        if init == InitThrows {
          cleanups := cleanups + 1;
        }
        running := false;
        worker := Exited;
        return;
      }
      worker := InExecute;
      ChangeStatus(Running);
    }

    /** The worker body after `execute()` returns or throws. */
    method WorkerEnd(exec: ExecOutcome)
      requires Valid() && worker == InExecute
      modifies this
      ensures Valid() && State() == Lifecycle.WorkerEnd(old(State()), exec)
    {
      if exec == ExecThrows {
        ChangeStatus(Failed);
      } else if !shouldStop {
        ChangeStatus(Completed);
      }
      cleanups := cleanups + 1;
      running := false;
      worker := Exited;
    }

    /** `taskWrapper()`, the whole worker body. */
    method TaskWrapper(init: InitOutcome, exec: ExecOutcome)
      requires Valid() && worker == Pending
      modifies this
      ensures Valid() && State() == WorkerRun(old(State()), init, exec)
    {
      WorkerBegin(init);
      if worker == InExecute {
        WorkerEnd(exec);
      }
    }

    /** `std::thread::join()` on the worker. */
    method Join(init: InitOutcome, exec: ExecOutcome)
      requires Valid()
      modifies this
      ensures Valid() && State() == Lifecycle.Join(old(State()), init, exec)
    {
      if worker == Pending {
        TaskWrapper(init, exec);
      } else if worker == InExecute {
        WorkerEnd(exec);
      }
      worker := NoThread;
    }

    /** `waitForCompletion(timeout)`. The timed branch polls every 10 ms; the
        worker, if inside `execute()`, leaves it after `exitAfter` sleeps
        (0: not during this wait). */
    method WaitForCompletion(limit: Limit, init: InitOutcome, exec: ExecOutcome, exitAfter: nat) returns (done: bool)
      requires Valid()
      modifies this
      ensures Valid() && (State(), done) == Lifecycle.WaitForCompletion(old(State()), limit, init, exec, exitAfter)
    {
      if worker == NoThread {
        return true;
      }
      if limit.Unbounded? {
        Join(init, exec);
        return true;
      }
      var budget := PollBudget(limit.ms);
      var polls := 0;
      while running && polls < budget
        invariant Valid() && polls <= budget
        invariant old(running) && 0 < exitAfter <= polls ==>
                    polls == exitAfter && State() == Lifecycle.WorkerEnd(old(State()), exec)
        invariant !(old(running) && 0 < exitAfter <= polls) ==> State() == old(State())
        decreases budget - polls
      {
        polls := polls + 1;
        if polls == exitAfter {
          WorkerEnd(exec);
        }
      }
      done := !running;
    }

    /** `handlePause()`: it polls the two flags every 10 ms until the pause
        flag is clear or the stop flag is set. Its first check reads the
        fields; `later` holds what the following checks read, as other threads
        change the flags. `released` is false when it is still waiting after
        the last of them. */
    method HandlePause(later: seq<PauseFlags>) returns (released: bool, checks: nat)
      ensures var obs := [PauseFlags(shouldPause, shouldStop)] + later;
              (released <==> FirstRelease(obs).Some?)
              && (released ==> checks == FirstRelease(obs).value)
              && (!released ==> checks == |obs|)
    {
      var obs := [PauseFlags(shouldPause, shouldStop)] + later;
      checks := 0;
      while checks < |obs| && !Released(obs[checks])
        invariant checks <= |obs|
        invariant forall j :: 0 <= j < checks ==> !Released(obs[j])
      {
        checks := checks + 1;
      }
      released := checks < |obs|;
    }

    /** `checkTimeout()`, given the time elapsed since the worker began. */
    method CheckTimeout(elapsed: nat) returns (timedOut: bool)
      requires Valid()
      modifies this
      ensures Valid() && (State(), timedOut) == Lifecycle.CheckTimeout(old(State()), elapsed)
    {
      if timeout.Millis? && elapsed > timeout.ms {
        ChangeStatus(Timeout);
        return true;
      }
      return false;
    }

    method SetTimeout(t: Limit)
      requires Valid()
      modifies this
      ensures Valid() && State() == old(State()).(timeout := t)
    {
      timeout := t;
    }

    method SetPriority(p: TaskPriority)
      requires Valid()
      modifies this
      ensures Valid() && State() == old(State()).(priority := p)
    {
      priority := p;
    }

    /** `incrementIterations()`: a 64-bit atomic increment, which wraps. */
    method IncrementIterations()
      requires Valid()
      modifies this
      ensures Valid() && State() == old(State()).(iterations := (old(iterations) + 1) % U64)
    {
      iterations := (iterations + 1) % U64;
    }

    /** `incrementErrors()`: a 64-bit atomic increment, which wraps. */
    method IncrementErrors()
      requires Valid()
      modifies this
      ensures Valid() && State() == old(State()).(errors := (old(errors) + 1) % U64)
    {
      errors := (errors + 1) % U64;
    }
  }
}
