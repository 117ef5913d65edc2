/** GSManagerTask: a supervisor task holding a list of managers. It sets them up and
    starts them in order, then watches them, restarting those that are down
    when restart is enabled, and finally stops them all. The calls it makes on
    its managers are recorded in `calls`; what the managers answer is given (see
    module Supervision). The task's own status is the `status_` it inherits
    from GSTaskBase. */
module ManagerTask {
  import opened Supervision
  import opened ProcessStatusMachine

  class GSManagerTask {
    var managers: seq<UnitRef>
    var restartFailedManagers: bool
    var managerCheckIntervalMs: int
    const endpoint: string
    var status: TaskStatus
    /** The calls made on the managers, in order. */
    ghost var calls: seq<Call>

    constructor ()
      ensures managers == [] && !restartFailedManagers && managerCheckIntervalMs == 1000
      ensures endpoint == "ipc://manager_task" && status == NotStarted && calls == []
    {
      managers := [];
      restartFailedManagers := false;
      managerCheckIntervalMs := 1000;
      endpoint := "ipc://manager_task";
      status := NotStarted;
      calls := [];
    }

    method AddManager(u: UnitRef)
      modifies this
      ensures managers == old(managers) + [u]
      ensures restartFailedManagers == old(restartFailedManagers) && managerCheckIntervalMs == old(managerCheckIntervalMs)
      ensures status == old(status) && calls == old(calls)
    {
      managers := managers + [u];
    }

    method RemoveManager(id: string)
      modifies this
      ensures managers == WithoutId(old(managers), id)
      ensures restartFailedManagers == old(restartFailedManagers) && managerCheckIntervalMs == old(managerCheckIntervalMs)
      ensures status == old(status) && calls == old(calls)
    {
      managers := WithoutId(managers, id);
    }

    function GetManagerCount(): nat
      reads this
    {
      |managers|
    }

    method SetRestartFailedManagers(restart: bool)
      modifies this
      ensures restartFailedManagers == restart && managers == old(managers) && calls == old(calls)
      ensures managerCheckIntervalMs == old(managerCheckIntervalMs) && status == old(status)
    {
      restartFailedManagers := restart;
    }

    method SetManagerCheckInterval(ms: int)
      modifies this
      ensures managerCheckIntervalMs == ms && managers == old(managers) && calls == old(calls)
      ensures restartFailedManagers == old(restartFailedManagers) && status == old(status)
    {
      managerCheckIntervalMs := ms;
    }

    /** `setupAllManagers`: `results[i]` is what `setup()` of the i-th manager
        returns. */
    method SetupAllManagers(results: seq<bool>) returns (ok: bool)
      requires |results| == |managers|
      modifies this`calls
      ensures ok <==> AllTrue(results)
      ensures calls == old(calls) + Each(Setup, managers[..Attempted(results)])
    {
      var i := 0;
      while i < |managers|
        invariant i <= |managers| && i <= FirstFailure(results)
        invariant calls == old(calls) + Each(Setup, managers[..i])
      {
        EachAppend(Setup, managers, i);
        calls := calls + [Call(Setup, managers[i])];
        if !results[i] {
          return false;
        }
        i := i + 1;
      }
      return true;
    }

    /** `startAllManagers`: `results[i]` is what `start()` of the i-th manager
        returns. Managers started before a failure are left running. */
    method StartAllManagers(results: seq<bool>) returns (ok: bool)
      requires |results| == |managers|
      modifies this`calls
      ensures ok <==> AllTrue(results)
      ensures calls == old(calls) + Each(Start, managers[..Attempted(results)])
    {
      var i := 0;
      while i < |managers|
        invariant i <= |managers| && i <= FirstFailure(results)
        invariant calls == old(calls) + Each(Start, managers[..i])
      {
        EachAppend(Start, managers, i);
        calls := calls + [Call(Start, managers[i])];
        if !results[i] {
          return false;
        }
        i := i + 1;
      }
      return true;
    }

    /** `stopAllManagers`. */
    method StopAllManagers()
      modifies this`calls
      ensures calls == old(calls) + StopCalls(managers)
    {
      var i := 0;
      while i < |managers|
        invariant i <= |managers|
        invariant old(calls) + StopCalls(managers) == calls + StopCalls(managers[i..])
      {
        assert managers[i..][1..] == managers[i + 1..];
        calls := calls + [Call(Stop, managers[i]), Call(Wait, managers[i])];
        i := i + 1;
      }
    }

    /** `areAllManagersRunning`: `running[i]` is what `isRunning()` of the i-th
        manager reports. */
    method AreAllManagersRunning(running: seq<bool>) returns (all: bool)
      requires |running| == |managers|
      ensures all <==> AllTrue(running)
    {
      var i := 0;
      while i < |managers|
        invariant i <= |managers|
        invariant forall j :: 0 <= j < i ==> running[j]
      {
        if !running[i] {
          return false;
        }
        i := i + 1;
      }
      return true;
    }

    /** `restartFailedManagers`: the hook `onManagerFailedHook` then `start()`
        for each manager that is not running; the result of `start()` is only
        logged. */
    method RestartFailedManagers(running: seq<bool>)
      requires |running| == |managers|
      modifies this`calls
      ensures calls == old(calls) + RestartCalls(managers, running)
    {
      var i := 0;
      while i < |managers|
        invariant i <= |managers|
        invariant old(calls) + RestartCalls(managers, running) == calls + RestartCalls(managers[i..], running[i..])
      {
        assert managers[i..][1..] == managers[i + 1..] && running[i..][1..] == running[i + 1..];
        if !running[i] {
          calls := calls + [Call(FailedHook, managers[i]), Call(Start, managers[i])];
        }
        i := i + 1;
      }
    }

    /** One pass of the monitoring loop's body. */
    method CheckManagers(round: Round) returns (exit: LoopExit)
      requires |round.running| == |managers|
      modifies this`calls
      ensures (calls, exit) == (old(calls) + RoundStep(managers, restartFailedManagers, round).0,
                                RoundStep(managers, restartFailedManagers, round).1)
    {
      assert calls + [] == calls;
      if round.stopRequested {
        return StopRequested;
      }
      var all := AreAllManagersRunning(round.running);
      if !all && !restartFailedManagers {
        return UnitDown;
      }
      if !all {
        RestartFailedManagers(round.running);
      }
      return StillMonitoring;
    }

    /** The monitoring loop of `processMain` over the given checks. */
    method MonitorManagers(rounds: seq<Round>) returns (exit: LoopExit)
      requires RoundsFit(managers, rounds)
      modifies this`calls
      ensures (calls, exit) == (old(calls) + Monitor(managers, restartFailedManagers, rounds).0,
                                Monitor(managers, restartFailedManagers, rounds).1)
    {
      ghost var loopCalls: seq<Call> := [];
      var r := 0;
      exit := StillMonitoring;
      assert rounds[0..] == rounds;
      assert loopCalls + Monitor(managers, restartFailedManagers, rounds).0 == Monitor(managers, restartFailedManagers, rounds).0;
      while r < |rounds| && exit == StillMonitoring
        invariant r <= |rounds| && calls == old(calls) + loopCalls
        invariant exit == StillMonitoring ==>
                    Monitor(managers, restartFailedManagers, rounds)
                    == (loopCalls + Monitor(managers, restartFailedManagers, rounds[r..]).0,
                        Monitor(managers, restartFailedManagers, rounds[r..]).1)
        invariant exit != StillMonitoring ==> Monitor(managers, restartFailedManagers, rounds) == (loopCalls, exit)
        decreases |rounds| - r
      {
        MonitorStep(managers, restartFailedManagers, rounds, r);
        ghost var step := RoundStep(managers, restartFailedManagers, rounds[r]);
        ghost var later := Monitor(managers, restartFailedManagers, rounds[r + 1..]);
        exit := CheckManagers(rounds[r]);
        if exit == StillMonitoring {
          assert loopCalls + (step.0 + later.0) == (loopCalls + step.0) + later.0;
        } else {
          assert loopCalls + step.0 == loopCalls;
        }
        loopCalls := loopCalls + step.0;
        r := r + 1;
      }
      if exit == StillMonitoring {
        assert rounds[r..] == [];
        assert loopCalls + [] == loopCalls;
      }
    }

    /** The monitoring loop followed, when the loop was left, by
        `stopAllManagers`. */
    method SuperviseManagers(rounds: seq<Round>) returns (exit: LoopExit)
      requires RoundsFit(managers, rounds)
      modifies this`calls
      ensures exit == Monitor(managers, restartFailedManagers, rounds).1
      ensures calls == old(calls) + Monitor(managers, restartFailedManagers, rounds).0
                       + (if exit == StillMonitoring then [] else StopCalls(managers))
    {
      exit := MonitorManagers(rounds);
      if exit != StillMonitoring {
        StopAllManagers();
      } else {
        assert calls + [] == calls;
      }
    }

    /** `processMain`. `hookOk` is the result of `preManagerStartHook()` (true
        by default); `rounds` are the checks of the monitoring loop. The
        post-start and monitoring hooks do nothing by default. When the
        rounds run out without a reason to leave, the loop is still
        running: the result is `LoopEnded(StillMonitoring)` and nothing is
        stopped. */
    method ProcessMain(hookOk: bool, setups: seq<bool>, starts: seq<bool>, rounds: seq<Round>) returns (outcome: MainOutcome)
      requires |setups| == |managers| && |starts| == |managers| && RoundsFit(managers, rounds)
      modifies this`calls, this`status
      ensures managers == old(managers) && restartFailedManagers == old(restartFailedManagers)
      ensures (calls, outcome) == (old(calls) + Main(managers, restartFailedManagers, hookOk, setups, starts, rounds).0,
                                   Main(managers, restartFailedManagers, hookOk, setups, starts, rounds).1)
      ensures status == if outcome.LoopEnded? then Running else old(status)
    {
      if !hookOk {
        assert calls == old(calls) + [];
        return HookRefused;
      }
      var ok := SetupAllManagers(setups);
      if !ok {
        return SetupFailed;
      }
      ok := StartAllManagers(starts);
      ghost var startCalls := Each(Setup, managers[..Attempted(setups)]) + Each(Start, managers[..Attempted(starts)]);
      assert calls == old(calls) + startCalls;
      if !ok {
        return StartFailed;
      }
      status := Running;
      MainReachesLoop(managers, restartFailedManagers, setups, starts, rounds);
      ghost var loop := Monitor(managers, restartFailedManagers, rounds);
      ghost var stops := if loop.1 == StillMonitoring then [] else StopCalls(managers);
      var exit := SuperviseManagers(rounds);
      ConcatAssociates(old(calls), startCalls, loop.0, stops);
      return LoopEnded(exit);
    }
  }
}
