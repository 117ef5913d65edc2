/** The status machine of GSTaskBase, a task run as a child process. The parent forks, records the
    child's pid, asks it to stop with SIGTERM and reaps it with non-blocking
    waitpid calls. What the operating system answers (the fork result, each
    waitpid result) is given to the methods; the child's side of the fork is
    not part of this model. */
module ProcessStatusMachine {
  import opened Outcomes

  datatype TaskStatus = NotStarted | Starting | Running | Stopping | Stopped | Failed | Crashed

  /** `taskStatusToString`. */
  function TaskStatusToString(s: TaskStatus): (name: string)
    ensures |name| >= 6
  {
    match s
    case NotStarted => "NotStarted"
    case Starting => "Starting"
    case Running => "Running"
    case Stopping => "Stopping"
    case Stopped => "Stopped"
    case Failed => "Failed"
    case Crashed => "Crashed"
  }

  /** Reads a name back; the partner of `TaskStatusToString`. */
  function TaskStatusFromString(name: string): Option<TaskStatus> {
    if name == "NotStarted" then Some(NotStarted)
    else if name == "Starting" then Some(Starting)
    else if name == "Running" then Some(Running)
    else if name == "Stopping" then Some(Stopping)
    else if name == "Stopped" then Some(Stopped)
    else if name == "Failed" then Some(Failed)
    else if name == "Crashed" then Some(Crashed)
    else None
  }

  lemma TaskStatusNamesRoundTrip(s: TaskStatus)
    ensures TaskStatusFromString(TaskStatusToString(s)) == Some(s)
  {
    match s
    case NotStarted =>
    case Starting =>
    case Running =>
    case Stopping =>
    case Stopped =>
    case Failed =>
    case Crashed =>
  }

  lemma TaskStatusNamesDistinct(s: TaskStatus, t: TaskStatus)
    requires s != t
    ensures TaskStatusToString(s) != TaskStatusToString(t)
  {
    TaskStatusNamesRoundTrip(s);
    TaskStatusNamesRoundTrip(t);
  }

  /** What `fork()` returned to the parent: -1, or the child's pid. */
  datatype Fork = ForkFailed | Forked(pid: int)

  /** What one `waitpid(child_pid_, &status, WNOHANG)` reported: the child
      exited through `exit(code)`, ended otherwise (a signal), the call failed,
      or the child is still running. */
  datatype WaitPoll = Exited(code: int) | Signalled | WaitError | StillRunning

  datatype Signal = SIGTERM | SIGKILL

  /** The parent's view of the task, with three records for what it did
      outside itself: the statuses passed to `changeStatus`, the signals sent
      (with their target pid) and the calls of the exit callback (pid, code). */
  datatype Proc = Proc(
    status: TaskStatus,
    childPid: int,
    shouldStop: bool,
    changes: seq<TaskStatus>,
    signals: seq<(int, Signal)>,
    exitReports: seq<(int, int)>)

  function ChangeStatus(p: Proc, s: TaskStatus): Proc {
    p.(status := s, changes := p.changes + [s])
  }

  /** `isRunning()`: Running and a child pid recorded
      (`isChildProcessAlive` only checks that the pid is positive). */
  predicate IsRunning(p: Proc) {
    p.status == Running && p.childPid > 0
  }

  function Start(p: Proc, preStartOk: bool, fork: Fork): (r: (Proc, bool))
    requires fork.Forked? ==> fork.pid > 0
    ensures p.status == Running ==> r == (p, false)
    ensures p.status != Running ==> (r.1 <==> preStartOk && fork.Forked?)
    ensures p.status != Running && r.1 ==>
              IsRunning(r.0) && r.0.childPid == fork.pid && r.0.changes == p.changes + [Starting, Running]
    ensures p.status != Running && !r.1 ==> r.0.status == Failed && r.0.changes == p.changes + [Starting, Failed]
    ensures p.status != Running && !preStartOk ==> r.0.childPid == p.childPid
  {
    if p.status == Running then (p, false)
    else
      var starting := ChangeStatus(p, Starting);
      if !preStartOk then (ChangeStatus(starting, Failed), false)
      else match fork
        case ForkFailed => (ChangeStatus(starting.(childPid := -1), Failed), false)
        case Forked(pid) => (ChangeStatus(starting.(childPid := pid), Running), true)
  }

  function Stop(p: Proc): (q: Proc)
    ensures !IsRunning(p) ==> q == p
    ensures IsRunning(p) ==>
              q.status == Stopping && q.shouldStop && q.childPid == p.childPid
              && q.signals == p.signals + [(p.childPid, SIGTERM)]
  {
    if !IsRunning(p) then p
    else
      var stopping := ChangeStatus(p, Stopping).(shouldStop := true);
      stopping.(signals := stopping.signals + [(stopping.childPid, SIGTERM)])
  }

  /** The number of waitpid polls before `timeoutSeconds` have elapsed, when
      each round of the loop takes exactly its 100 ms sleep. */
  function WaitBudget(timeoutSeconds: int): (n: nat)
    ensures timeoutSeconds <= 0 ==> n == 0
    ensures timeoutSeconds > 0 ==> n * 100 == timeoutSeconds * 1000
  {
    if timeoutSeconds <= 0 then 0 else 10 * timeoutSeconds
  }

  /** What the k-th poll reports; polls past the given ones still see the
      child running. */
  function PollAt(polls: seq<WaitPoll>, k: nat): WaitPoll {
    if k < |polls| then polls[k] else StillRunning
  }

  /** The first of the first `budget` polls that does not report a running
      child. */
  function FirstSettled(polls: seq<WaitPoll>, budget: nat): (r: Option<nat>)
    ensures r.Some? ==> r.value < budget && PollAt(polls, r.value) != StillRunning
    ensures r.Some? ==> forall j :: 0 <= j < r.value ==> PollAt(polls, j) == StillRunning
    ensures r.None? ==> forall j :: 0 <= j < budget ==> PollAt(polls, j) == StillRunning
    decreases budget
  {
    if budget == 0 then None
    else match FirstSettled(polls, budget - 1)
      case Some(k) => Some(k)
      case None => if PollAt(polls, budget - 1) != StillRunning then Some(budget - 1) else None
  }

  /** The exit code the source derives from a reaped child. */
  function ExitCode(w: WaitPoll): int
    requires w.Exited? || w.Signalled?
  {
    if w.Exited? then w.code else -1
  }

  /** What one settled poll does to the task. */
  function Settle(p: Proc, w: WaitPoll): (q: Proc)
    requires w != StillRunning
    ensures q.childPid == -1 && !IsRunning(q)
    ensures w == Exited(0) ==> q.status == Stopped
    ensures w.Signalled? || (w.Exited? && w.code != 0) ==> q.status == Crashed
    ensures w == WaitError ==> q.status == Failed && q.exitReports == p.exitReports
    ensures w != WaitError ==> q.exitReports == p.exitReports + [(p.childPid, ExitCode(w))]
  {
    if w == WaitError then ChangeStatus(p.(childPid := -1), Failed)
    else
      var code := ExitCode(w);
      var changed := ChangeStatus(p, if code == 0 then Stopped else Crashed);
      changed.(exitReports := changed.exitReports + [(p.childPid, code)], childPid := -1)
  }

  function WaitForExit(p: Proc, timeoutSeconds: int, polls: seq<WaitPoll>): (r: (Proc, bool))
    ensures p.childPid <= 0 ==> r == (p, true)
    ensures r.1 <==> p.childPid <= 0 || FirstSettled(polls, WaitBudget(timeoutSeconds)).Some?
    ensures !r.1 ==> r.0 == p
    ensures r.1 ==> r.0.childPid <= 0 && !IsRunning(r.0)
  {
    if p.childPid <= 0 then (p, true)
    else match FirstSettled(polls, WaitBudget(timeoutSeconds))
      case None => (p, false)
      case Some(k) => (Settle(p, PollAt(polls, k)), true)
  }

  function ForceKill(p: Proc, polls: seq<WaitPoll>): (q: Proc)
    ensures p.childPid <= 0 ==> q == p
    ensures p.childPid > 0 ==> |q.signals| > |p.signals| && q.signals[|p.signals|] == (p.childPid, SIGKILL)
  {
    if p.childPid > 0 then WaitForExit(p.(signals := p.signals + [(p.childPid, SIGKILL)]), 5, polls).0
    else p
  }

  /** A task stopped and then reaped after a clean `exit(0)` ends Stopped with
      no child recorded; a second `stop()` then does nothing. */
  lemma StopThenCleanExitEndsStopped(p: Proc, timeoutSeconds: int)
    requires IsRunning(p) && timeoutSeconds > 0
    ensures var r := WaitForExit(Stop(p), timeoutSeconds, [Exited(0)]);
            r.1 && r.0.status == Stopped && r.0.childPid == -1 && Stop(r.0) == r.0
  {
    assert FirstSettled([Exited(0)], 1) == Some(0);
    assert WaitBudget(timeoutSeconds) >= 1;
    FirstSettledIsStable([Exited(0)], 1, WaitBudget(timeoutSeconds));
  }

  /** A longer wait settles on the same poll as a shorter one that settled. */
  lemma {:induction false} FirstSettledIsStable(polls: seq<WaitPoll>, b1: nat, b2: nat)
    requires b1 <= b2 && FirstSettled(polls, b1).Some?
    ensures FirstSettled(polls, b2) == FirstSettled(polls, b1)
    decreases b2
  {
    if b2 > b1 {
      FirstSettledIsStable(polls, b1, b2 - 1);
    }
  }

  /** Calling `start()` while an earlier child is still being stopped
      overwrites its pid: that child can no longer be signalled or reaped
      through this object. */
  lemma RestartWhileStoppingForgetsChild(p: Proc, pid: int)
    requires p.status == Stopping && p.childPid > 0 && pid > 0 && pid != p.childPid
    ensures var r := Start(p, true, Forked(pid));
            r.1 && r.0.childPid == pid && Stop(r.0).signals == p.signals + [(pid, SIGTERM)]
  {
  }

  /** `start()` as evidently intended: besides Running, it also refuses while
      an earlier child is still being stopped, so that child's pid is kept
      until `waitForExit` or `forceKill` has settled it. */
  function StartRefusingWhileStopping(p: Proc, preStartOk: bool, fork: Fork): (r: (Proc, bool))
    requires fork.Forked? ==> fork.pid > 0
    ensures p.status == Stopping ==> r == (p, false)
    ensures p.status != Stopping ==> r == Start(p, preStartOk, fork)
  {
    if p.status == Stopping then (p, false) else Start(p, preStartOk, fork)
  }

  /** With that guard, a child being stopped is never forgotten: whatever the
      hook and the fork do, its pid stays recorded, and a later `stop()`
      still has it; a start from any other status is unchanged. */
  lemma CorrectedStartKeepsStoppingChild(p: Proc, preStartOk: bool, fork: Fork)
    requires fork.Forked? ==> fork.pid > 0
    ensures var r := StartRefusingWhileStopping(p, preStartOk, fork);
            (p.status == Stopping ==> !r.1 && r.0.childPid == p.childPid && r.0.status == Stopping)
            && (r.1 ==> p.status != Stopping && p.status != Running && IsRunning(r.0))
  {
  }

}

/** The class itself, proved against module ProcessStatusMachine. */
module ProcessTask {
  import opened ProcessStatusMachine

  class GSTaskBase {
    const name: string
    const id: string
    var status: TaskStatus
    var childPid: int
    var shouldStop: bool
    var ipcEndpoint: string
    ghost var changes: seq<TaskStatus>
    ghost var signals: seq<(int, Signal)>
    ghost var exitReports: seq<(int, int)>

    ghost function State(): Proc
      reads this
    {
      Proc(status, childPid, shouldStop, changes, signals, exitReports)
    }

    /** The identifier is random in the source; here it is given. */
    constructor (name: string, id: string)
      ensures State() == Proc(NotStarted, -1, false, [], [], [])
      ensures this.name == name && this.id == id
    {
      this.name := name;
      this.id := id;
      status := NotStarted;
      childPid := -1;
      shouldStop := false;
      ipcEndpoint := "";
      changes, signals, exitReports := [], [], [];
    }

    method ChangeStatus(s: TaskStatus)
      modifies this
      ensures State() == ProcessStatusMachine.ChangeStatus(old(State()), s) && ipcEndpoint == old(ipcEndpoint)
    {
      status := s;
      changes := changes + [s];
    }

    /** `isRunning()`. */
    method IsRunning() returns (b: bool)
      ensures b <==> ProcessStatusMachine.IsRunning(State())
    {
      b := status == Running && IsChildProcessAlive();
    }

    /** `isChildProcessAlive()`: only the recorded pid is looked at. */
    function IsChildProcessAlive(): (b: bool)
      reads this
      ensures b <==> childPid > 0
    {
      if childPid <= 0 then false else true
    }

    /** `start()` in the parent process. `preStartOk` is the result of
        `preStartHook()` (true by default) and `fork` what `fork()` returned;
        `postStartHook()` does nothing by default. */
    method Start(preStartOk: bool, fork: Fork) returns (ok: bool)
      requires fork.Forked? ==> fork.pid > 0
      modifies this
      ensures (State(), ok) == ProcessStatusMachine.Start(old(State()), preStartOk, fork)
      ensures ipcEndpoint == old(ipcEndpoint)
    {
      if status == Running {
        return false;
      }
      ChangeStatus(Starting);
      if !preStartOk {
        ChangeStatus(Failed);
        return false;
      }
      match fork {
        case ForkFailed =>
          childPid := -1;
          ChangeStatus(Failed);
          return false;
        case Forked(pid) =>
          childPid := pid;
          ChangeStatus(Running);
          return true;
      }
    }

    /** `stop()`. `preStopHook()` and `postStopHook()` do nothing by default.
        The source holds `status_mutex_` while calling `isRunning()`, which
        locks it again; this model treats the call as one atomic step. */
    method Stop()
      modifies this
      ensures State() == ProcessStatusMachine.Stop(old(State())) && ipcEndpoint == old(ipcEndpoint)
    {
      var running := IsRunning();
      if !running {
        return;
      }
      ChangeStatus(Stopping);
      shouldStop := true;
      if childPid > 0 {
        signals := signals + [(childPid, SIGTERM)];
      }
    }

    /** `waitForExit(timeout_seconds)`: `polls` are the successive waitpid
        results. */
    method WaitForExit(timeoutSeconds: int, polls: seq<WaitPoll>) returns (exited: bool)
      modifies this
      ensures (State(), exited) == ProcessStatusMachine.WaitForExit(old(State()), timeoutSeconds, polls)
      ensures ipcEndpoint == old(ipcEndpoint)
    {
      if childPid <= 0 {
        return true;
      }
      var budget := WaitBudget(timeoutSeconds);
      var k := 0;
      while k < budget
        invariant k <= budget && State() == old(State())
        invariant forall j :: 0 <= j < k ==> PollAt(polls, j) == StillRunning
        invariant FirstSettled(polls, budget).None? || k <= FirstSettled(polls, budget).value
      {
        var w := PollAt(polls, k);
        if w.Exited? || w.Signalled? {
          var code := if w.Exited? then w.code else -1;
          ChangeStatus(if code == 0 then Stopped else Crashed);
          exitReports := exitReports + [(childPid, code)];
          childPid := -1;
          return true;
        } else if w == WaitError {
          childPid := -1;
          ChangeStatus(Failed);
          return true;
        }
        k := k + 1;
      }
      return false;
    }

    /** `forceKill()`: SIGKILL, then a 5 s wait. */
    method ForceKill(polls: seq<WaitPoll>)
      modifies this
      ensures State() == ProcessStatusMachine.ForceKill(old(State()), polls) && ipcEndpoint == old(ipcEndpoint)
    {
      if childPid > 0 {
        signals := signals + [(childPid, SIGKILL)];
        var exited := WaitForExit(5, polls);
      }
    }

    method SetIPCEndpoint(endpoint: string)
      modifies this
      ensures ipcEndpoint == endpoint && State() == old(State())
    {
      ipcEndpoint := endpoint;
    }
  }
}
