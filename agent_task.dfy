/** GSAgentTask: a supervisor task holding a list of agents. It sets them up and
    starts them in order, then watches them, restarting those that are down
    when restart is enabled, and finally stops them all. The calls it makes on
    its agents are recorded in `calls`; what the agents answer is given (see
    module Supervision). The task's own status is the `status_` it inherits
    from GSTaskBase. */
module AgentTask {
  import opened Supervision
  import opened ProcessStatusMachine

  class GSAgentTask {
    var agents: seq<UnitRef>
    var restartFailedAgents: bool
    var agentCheckIntervalMs: int
    const endpoint: string
    var status: TaskStatus
    /** The calls made on the agents, in order. */
    ghost var calls: seq<Call>

    constructor ()
      ensures agents == [] && !restartFailedAgents && agentCheckIntervalMs == 1000
      ensures endpoint == "ipc://agent_task" && status == NotStarted && calls == []
    {
      agents := [];
      restartFailedAgents := false;
      agentCheckIntervalMs := 1000;
      endpoint := "ipc://agent_task";
      status := NotStarted;
      calls := [];
    }

    method AddAgent(u: UnitRef)
      modifies this
      ensures agents == old(agents) + [u]
      ensures restartFailedAgents == old(restartFailedAgents) && agentCheckIntervalMs == old(agentCheckIntervalMs)
      ensures status == old(status) && calls == old(calls)
    {
      agents := agents + [u];
    }

    method RemoveAgent(id: string)
      modifies this
      ensures agents == WithoutId(old(agents), id)
      ensures restartFailedAgents == old(restartFailedAgents) && agentCheckIntervalMs == old(agentCheckIntervalMs)
      ensures status == old(status) && calls == old(calls)
    {
      agents := WithoutId(agents, id);
    }

    function GetAgentCount(): nat
      reads this
    {
      |agents|
    }

    method SetRestartFailedAgents(restart: bool)
      modifies this
      ensures restartFailedAgents == restart && agents == old(agents) && calls == old(calls)
      ensures agentCheckIntervalMs == old(agentCheckIntervalMs) && status == old(status)
    {
      restartFailedAgents := restart;
    }

    method SetAgentCheckInterval(ms: int)
      modifies this
      ensures agentCheckIntervalMs == ms && agents == old(agents) && calls == old(calls)
      ensures restartFailedAgents == old(restartFailedAgents) && status == old(status)
    {
      agentCheckIntervalMs := ms;
    }

    /** `setupAllAgents`: `results[i]` is what `setup()` of the i-th agent
        returns. */
    method SetupAllAgents(results: seq<bool>) returns (ok: bool)
      requires |results| == |agents|
      modifies this`calls
      ensures ok <==> AllTrue(results)
      ensures calls == old(calls) + Each(Setup, agents[..Attempted(results)])
    {
      var i := 0;
      while i < |agents|
        invariant i <= |agents| && i <= FirstFailure(results)
        invariant calls == old(calls) + Each(Setup, agents[..i])
      {
        EachAppend(Setup, agents, i);
        calls := calls + [Call(Setup, agents[i])];
        if !results[i] {
          return false;
        }
        i := i + 1;
      }
      return true;
    }

    /** `startAllAgents`: `results[i]` is what `start()` of the i-th agent
        returns. Agents started before a failure are left running. */
    method StartAllAgents(results: seq<bool>) returns (ok: bool)
      requires |results| == |agents|
      modifies this`calls
      ensures ok <==> AllTrue(results)
      ensures calls == old(calls) + Each(Start, agents[..Attempted(results)])
    {
      var i := 0;
      while i < |agents|
        invariant i <= |agents| && i <= FirstFailure(results)
        invariant calls == old(calls) + Each(Start, agents[..i])
      {
        EachAppend(Start, agents, i);
        calls := calls + [Call(Start, agents[i])];
        if !results[i] {
          return false;
        }
        i := i + 1;
      }
      return true;
    }

    /** `stopAllAgents`. */
    method StopAllAgents()
      modifies this`calls
      ensures calls == old(calls) + StopCalls(agents)
    {
      var i := 0;
      while i < |agents|
        invariant i <= |agents|
        invariant old(calls) + StopCalls(agents) == calls + StopCalls(agents[i..])
      {
        assert agents[i..][1..] == agents[i + 1..];
        calls := calls + [Call(Stop, agents[i]), Call(Wait, agents[i])];
        i := i + 1;
      }
    }

    /** `areAllAgentsRunning`: `running[i]` is what `isRunning()` of the i-th
        agent reports. */
    method AreAllAgentsRunning(running: seq<bool>) returns (all: bool)
      requires |running| == |agents|
      ensures all <==> AllTrue(running)
    {
      var i := 0;
      while i < |agents|
        invariant i <= |agents|
        invariant forall j :: 0 <= j < i ==> running[j]
      {
        if !running[i] {
          return false;
        }
        i := i + 1;
      }
      return true;
    }

    /** `restartFailedAgents`: the hook `onAgentFailedHook` then `start()`
        for each agent that is not running; the result of `start()` is only
        logged. */
    method RestartFailedAgents(running: seq<bool>)
      requires |running| == |agents|
      modifies this`calls
      ensures calls == old(calls) + RestartCalls(agents, running)
    {
      var i := 0;
      while i < |agents|
        invariant i <= |agents|
        invariant old(calls) + RestartCalls(agents, running) == calls + RestartCalls(agents[i..], running[i..])
      {
        assert agents[i..][1..] == agents[i + 1..] && running[i..][1..] == running[i + 1..];
        if !running[i] {
          calls := calls + [Call(FailedHook, agents[i]), Call(Start, agents[i])];
        }
        i := i + 1;
      }
    }

    /** One pass of the monitoring loop's body. */
    method CheckAgents(round: Round) returns (exit: LoopExit)
      requires |round.running| == |agents|
      modifies this`calls
      ensures (calls, exit) == (old(calls) + RoundStep(agents, restartFailedAgents, round).0,
                                RoundStep(agents, restartFailedAgents, round).1)
    {
      assert calls + [] == calls;
      if round.stopRequested {
        return StopRequested;
      }
      var all := AreAllAgentsRunning(round.running);
      if !all && !restartFailedAgents {
        return UnitDown;
      }
      if !all {
        RestartFailedAgents(round.running);
      }
      return StillMonitoring;
    }

    /** The monitoring loop of `processMain` over the given checks. */
    method MonitorAgents(rounds: seq<Round>) returns (exit: LoopExit)
      requires RoundsFit(agents, rounds)
      modifies this`calls
      ensures (calls, exit) == (old(calls) + Monitor(agents, restartFailedAgents, rounds).0,
                                Monitor(agents, restartFailedAgents, rounds).1)
    {
      ghost var loopCalls: seq<Call> := [];
      var r := 0;
      exit := StillMonitoring;
      assert rounds[0..] == rounds;
      assert loopCalls + Monitor(agents, restartFailedAgents, rounds).0 == Monitor(agents, restartFailedAgents, rounds).0;
      while r < |rounds| && exit == StillMonitoring
        invariant r <= |rounds| && calls == old(calls) + loopCalls
        invariant exit == StillMonitoring ==>
                    Monitor(agents, restartFailedAgents, rounds)
                    == (loopCalls + Monitor(agents, restartFailedAgents, rounds[r..]).0,
                        Monitor(agents, restartFailedAgents, rounds[r..]).1)
        invariant exit != StillMonitoring ==> Monitor(agents, restartFailedAgents, rounds) == (loopCalls, exit)
        decreases |rounds| - r
      {
        MonitorStep(agents, restartFailedAgents, rounds, r);
        ghost var step := RoundStep(agents, restartFailedAgents, rounds[r]);
        ghost var later := Monitor(agents, restartFailedAgents, rounds[r + 1..]);
        exit := CheckAgents(rounds[r]);
        if exit == StillMonitoring {
          assert loopCalls + (step.0 + later.0) == (loopCalls + step.0) + later.0;
        } else {
          assert loopCalls + step.0 == loopCalls;
        }
        loopCalls := loopCalls + step.0;
        r := r + 1;
      }
      if exit == StillMonitoring {
        assert rounds[r..] == [];
        assert loopCalls + [] == loopCalls;
      }
    }

    /** The monitoring loop followed, when the loop was left, by
        `stopAllAgents`. */
    method SuperviseAgents(rounds: seq<Round>) returns (exit: LoopExit)
      requires RoundsFit(agents, rounds)
      modifies this`calls
      ensures exit == Monitor(agents, restartFailedAgents, rounds).1
      ensures calls == old(calls) + Monitor(agents, restartFailedAgents, rounds).0
                       + (if exit == StillMonitoring then [] else StopCalls(agents))
    {
      exit := MonitorAgents(rounds);
      if exit != StillMonitoring {
        StopAllAgents();
      } else {
        assert calls + [] == calls;
      }
    }

    /** `processMain`. `hookOk` is the result of `preAgentStartHook()` (true
        by default); `rounds` are the checks of the monitoring loop. The
        post-start and monitoring hooks do nothing by default. When the
        rounds run out without a reason to leave, the loop is still
        running: the result is `LoopEnded(StillMonitoring)` and nothing is
        stopped. */
    method ProcessMain(hookOk: bool, setups: seq<bool>, starts: seq<bool>, rounds: seq<Round>) returns (outcome: MainOutcome)
      requires |setups| == |agents| && |starts| == |agents| && RoundsFit(agents, rounds)
      modifies this`calls, this`status
      ensures agents == old(agents) && restartFailedAgents == old(restartFailedAgents)
      ensures (calls, outcome) == (old(calls) + Main(agents, restartFailedAgents, hookOk, setups, starts, rounds).0,
                                   Main(agents, restartFailedAgents, hookOk, setups, starts, rounds).1)
      ensures status == if outcome.LoopEnded? then Running else old(status)
    {
      if !hookOk {
        assert calls == old(calls) + [];
        return HookRefused;
      }
      var ok := SetupAllAgents(setups);
      if !ok {
        return SetupFailed;
      }
      ok := StartAllAgents(starts);
      ghost var startCalls := Each(Setup, agents[..Attempted(setups)]) + Each(Start, agents[..Attempted(starts)]);
      assert calls == old(calls) + startCalls;
      if !ok {
        return StartFailed;
      }
      status := Running;
      MainReachesLoop(agents, restartFailedAgents, setups, starts, rounds);
      ghost var loop := Monitor(agents, restartFailedAgents, rounds);
      ghost var stops := if loop.1 == StillMonitoring then [] else StopCalls(agents);
      var exit := SuperviseAgents(rounds);
      ConcatAssociates(old(calls), startCalls, loop.0, stops);
      return LoopEnded(exit);
    }
  }
}
