/** What a supervisor task (GSAgentTask, GSManagerTask) does with the units it
    owns, as pure functions: which calls it makes on which unit, in which
    order, given what each unit answers. A unit is seen through its name and
    id; its answers (the results of `setup()` and `start()`, and what
    `isRunning()` reports at each check of the monitoring loop) are inputs. */
module Supervision {

  datatype UnitRef = UnitRef(name: string, id: string)

  /** The calls a supervisor makes on a unit or about it. */
  datatype Op = Setup | Start | Stop | Wait | FailedHook

  datatype Call = Call(op: Op, unit: UnitRef)

  /** One check of the monitoring loop: whether `should_stop_` was set, and
      what `isRunning()` reports for each unit, in order. */
  datatype Round = Round(stopRequested: bool, running: seq<bool>)

  datatype LoopExit = StopRequested | UnitDown | StillMonitoring

  datatype MainOutcome = HookRefused | SetupFailed | StartFailed | LoopEnded(exit: LoopExit)

  /** The same call on each unit, in order. */
  function Each(op: Op, units: seq<UnitRef>): (calls: seq<Call>)
    ensures |calls| == |units|
    ensures forall i :: 0 <= i < |units| ==> calls[i] == Call(op, units[i])
  {
    seq(|units|, i requires 0 <= i < |units| => Call(op, units[i]))
  }

  lemma EachAppend(op: Op, units: seq<UnitRef>, i: nat)
    requires i < |units|
    ensures Each(op, units[..i + 1]) == Each(op, units[..i]) + [Call(op, units[i])]
  {
    assert Each(op, units[..i + 1])[i] == Call(op, units[i]);
  }

  /** The index of the first false result, or the length when all are true. */
  function FirstFailure(results: seq<bool>): (k: nat)
    ensures k <= |results|
    ensures forall j :: 0 <= j < k ==> results[j]
    ensures k < |results| ==> !results[k]
  {
    if results == [] then 0
    else if !results[0] then 0
    else 1 + FirstFailure(results[1..])
  }

  /** How many units a short-circuiting loop calls: up to and including the
      first that fails. */
  function Attempted(results: seq<bool>): (n: nat)
    ensures n <= |results|
    ensures n == |results| || n == FirstFailure(results) + 1
  {
    if FirstFailure(results) < |results| then FirstFailure(results) + 1 else |results|
  }

  predicate AllTrue(bs: seq<bool>) {
    forall i :: 0 <= i < |bs| ==> bs[i]
  }

  /** `stopAllAgents`/`stopAllManagers`: for each unit in order, `stop()` then
      a 5 s `waitForCompletion`. */
  function StopCalls(units: seq<UnitRef>): (calls: seq<Call>)
    ensures |calls| == 2 * |units|
  {
    if units == [] then []
    else [Call(Stop, units[0]), Call(Wait, units[0])] + StopCalls(units[1..])
  }

  /** `restartFailedAgents`/`restartFailedManagers`: for each unit that is not
      running, in order, the failure hook then `start()`. */
  function RestartCalls(units: seq<UnitRef>, running: seq<bool>): (calls: seq<Call>)
    requires |running| == |units|
    ensures |calls| <= 2 * |units|
  {
    if units == [] then []
    else (if !running[0] then [Call(FailedHook, units[0]), Call(Start, units[0])] else [])
         + RestartCalls(units[1..], running[1..])
  }

  /** The number of units that are not running. */
  function CountDown(running: seq<bool>): nat {
    if running == [] then 0 else (if running[0] then 0 else 1) + CountDown(running[1..])
  }

  /** The restart pass makes only failure-hook and `start()` calls, and
      none when every unit is running. */
  lemma {:induction false} RestartCallsHookAndStartOnly(units: seq<UnitRef>, running: seq<bool>)
    requires |running| == |units|
    ensures forall c :: c in RestartCalls(units, running) ==> c.op == FailedHook || c.op == Start
    ensures AllTrue(running) ==> RestartCalls(units, running) == []
  {
    if units != [] {
      RestartCallsHookAndStartOnly(units[1..], running[1..]);
      if AllTrue(running) {
        assert running[0] && AllTrue(running[1..]);
      }
    }
  }

  /** The restart pass calls exactly the units that are not running, and no
      running unit is called at all. */
  lemma {:induction false} RestartOnlyNonRunning(units: seq<UnitRef>, running: seq<bool>)
    requires |running| == |units|
    ensures |RestartCalls(units, running)| == 2 * CountDown(running)
    ensures forall c :: c in RestartCalls(units, running) ==>
              exists i :: 0 <= i < |units| && !running[i] && c.unit == units[i]
  {
    if units != [] {
      RestartOnlyNonRunning(units[1..], running[1..]);
      var rest := RestartCalls(units[1..], running[1..]);
      forall c | c in rest
        ensures exists i :: 0 <= i < |units| && !running[i] && c.unit == units[i]
      {
        var i :| 0 <= i < |units[1..]| && !running[1..][i] && c.unit == units[1..][i];
        assert !running[i + 1] && c.unit == units[i + 1];
      }
    }
  }

  /** Each unit that is not running gets the failure hook immediately
      followed by `start()`, so it is restarted. */
  lemma {:induction false} RestartHookBeforeStart(units: seq<UnitRef>, running: seq<bool>, i: nat)
    requires |running| == |units| && i < |units| && !running[i]
    ensures exists p :: 0 <= p < |RestartCalls(units, running)| - 1
                        && RestartCalls(units, running)[p] == Call(FailedHook, units[i])
                        && RestartCalls(units, running)[p + 1] == Call(Start, units[i])
    ensures Call(FailedHook, units[i]) in RestartCalls(units, running) && Call(Start, units[i]) in RestartCalls(units, running)
  {
    var head := if !running[0] then [Call(FailedHook, units[0]), Call(Start, units[0])] else [];
    var rest := RestartCalls(units[1..], running[1..]);
    var calls := RestartCalls(units, running);
    assert calls == head + rest;
    if i == 0 {
      assert |calls| >= 2 && calls[0] == Call(FailedHook, units[0]) && calls[1] == Call(Start, units[0]);
    } else {
      assert units[1..][i - 1] == units[i] && !running[1..][i - 1];
      RestartHookBeforeStart(units[1..], running[1..], i - 1);
      var q :| 0 <= q < |rest| - 1 && rest[q] == Call(FailedHook, units[i]) && rest[q + 1] == Call(Start, units[i]);
      assert calls[|head| + q] == rest[q] && calls[|head| + q + 1] == rest[q + 1];
    }
  }

  /** `std::remove_if` by id followed by `erase`: the units whose id differs,
      in their original order. */
  function WithoutId(units: seq<UnitRef>, id: string): (rest: seq<UnitRef>)
    ensures |rest| <= |units|
    ensures forall u :: u in rest ==> u in units && u.id != id
  {
    if units == [] then []
    else (if units[0].id == id then [] else [units[0]]) + WithoutId(units[1..], id)
  }

  /** Removing by id keeps every other unit: filtering a concatenation is
      concatenating the filtered parts, so the order is kept. */
  lemma {:induction false} WithoutIdDistributes(a: seq<UnitRef>, b: seq<UnitRef>, id: string)
    ensures WithoutId(a + b, id) == WithoutId(a, id) + WithoutId(b, id)
  {
    if a == [] {
      assert a + b == b;
    } else {
      assert (a + b)[1..] == a[1..] + b;
      WithoutIdDistributes(a[1..], b, id);
    }
  }

  /** Removing an id that no unit has changes nothing. */
  lemma {:induction false} WithoutAbsentIdIsIdentity(units: seq<UnitRef>, id: string)
    requires forall u :: u in units ==> u.id != id
    ensures WithoutId(units, id) == units
  {
    if units != [] {
      assert units[0] in units;
      assert forall u :: u in units[1..] ==> u in units;
      WithoutAbsentIdIsIdentity(units[1..], id);
    }
  }

  /** A unit with another id survives the removal. */
  lemma {:induction false} WithoutIdKeepsOthers(units: seq<UnitRef>, id: string, u: UnitRef)
    requires u in units && u.id != id
    ensures u in WithoutId(units, id)
  {
    if units[0] != u {
      WithoutIdKeepsOthers(units[1..], id, u);
    }
  }

  predicate RoundsFit(units: seq<UnitRef>, rounds: seq<Round>) {
    forall i :: 0 <= i < |rounds| ==> |rounds[i].running| == |units|
  }

  /** One check of the monitoring loop: leave when stop is requested; when a
      unit is down either restart the down units (restart enabled) or leave
      (disabled); otherwise carry on without calls. */
  function RoundStep(units: seq<UnitRef>, restart: bool, round: Round): (r: (seq<Call>, LoopExit))
    requires |round.running| == |units|
    ensures r.1 != StillMonitoring ==> r.0 == []
    ensures r.1 == StopRequested <==> round.stopRequested
    ensures r.1 == UnitDown <==> !round.stopRequested && !restart && !AllTrue(round.running)
  {
    if round.stopRequested then ([], StopRequested)
    else if AllTrue(round.running) then ([], StillMonitoring)
    else if restart then (RestartCalls(units, round.running), StillMonitoring)
    else ([], UnitDown)
  }

  /** The monitoring loop over the given checks, one `RoundStep` after the
      other until one of them leaves. */
  function Monitor(units: seq<UnitRef>, restart: bool, rounds: seq<Round>): (r: (seq<Call>, LoopExit))
    requires RoundsFit(units, rounds)
    ensures !restart ==> r.0 == []
    ensures r.1 == StillMonitoring ==> forall i :: 0 <= i < |rounds| ==> !rounds[i].stopRequested
  {
    if rounds == [] then ([], StillMonitoring)
    else
      var step := RoundStep(units, restart, rounds[0]);
      if step.1 != StillMonitoring then step
      else
        var later := Monitor(units, restart, rounds[1..]);
        (step.0 + later.0, later.1)
  }

  /** One check of the monitoring loop, for a loop that walks the checks
      from the front. */
  lemma MonitorStep(units: seq<UnitRef>, restart: bool, rounds: seq<Round>, r: nat)
    requires RoundsFit(units, rounds) && r < |rounds|
    ensures var step := RoundStep(units, restart, rounds[r]);
            var later := Monitor(units, restart, rounds[r + 1..]);
            Monitor(units, restart, rounds[r..])
            == if step.1 != StillMonitoring then step else (step.0 + later.0, later.1)
  {
    assert rounds[r..][1..] == rounds[r + 1..];
  }

  /** `processMain`: the pre-start hook, then set up all, start all, the
      monitoring loop, and `stopAllAgents` after the loop. */
  function Main(units: seq<UnitRef>, restart: bool, hookOk: bool, setups: seq<bool>, starts: seq<bool>, rounds: seq<Round>)
    : (r: (seq<Call>, MainOutcome))
    requires |setups| == |units| && |starts| == |units| && RoundsFit(units, rounds)
    ensures r.1 == HookRefused <==> !hookOk
    ensures r.1 == SetupFailed <==> hookOk && !AllTrue(setups)
    ensures r.1.LoopEnded? <==> hookOk && AllTrue(setups) && AllTrue(starts)
  {
    if !hookOk then ([], HookRefused)
    else
      var setupCalls := Each(Setup, units[..Attempted(setups)]);
      if !AllTrue(setups) then (setupCalls, SetupFailed)
      else
        var startCalls := setupCalls + Each(Start, units[..Attempted(starts)]);
        if !AllTrue(starts) then (startCalls, StartFailed)
        else
          var loop := Monitor(units, restart, rounds);
          var stops := if loop.1 == StillMonitoring then [] else StopCalls(units);
          (startCalls + loop.0 + stops, LoopEnded(loop.1))
  }

  lemma ConcatAssociates(a: seq<Call>, b: seq<Call>, c: seq<Call>, d: seq<Call>)
    ensures ((a + b) + c) + d == a + ((b + c) + d)
  {
  }

  /** `Main` on the path that reaches the monitoring loop. */
  lemma MainReachesLoop(units: seq<UnitRef>, restart: bool, setups: seq<bool>, starts: seq<bool>, rounds: seq<Round>)
    requires |setups| == |units| && |starts| == |units| && RoundsFit(units, rounds)
    requires AllTrue(setups) && AllTrue(starts)
    ensures var loop := Monitor(units, restart, rounds);
            Main(units, restart, true, setups, starts, rounds)
            == (Each(Setup, units[..Attempted(setups)]) + Each(Start, units[..Attempted(starts)]) + loop.0
                + (if loop.1 == StillMonitoring then [] else StopCalls(units)),
                LoopEnded(loop.1))
  {
  }

  lemma StopCallsHaveOnlyStopAndWait(units: seq<UnitRef>)
    ensures forall c :: c in StopCalls(units) ==> c.op == Stop || c.op == Wait
    ensures forall u :: u in units ==> Call(Stop, u) in StopCalls(units)
  {
  }

  /** When the hook, a setup or a start fails, `processMain` returns before
      the loop and never stops any unit, including those it already started. */
  lemma EarlyExitStopsNothing(units: seq<UnitRef>, restart: bool, hookOk: bool, setups: seq<bool>, starts: seq<bool>, rounds: seq<Round>)
    requires |setups| == |units| && |starts| == |units| && RoundsFit(units, rounds)
    requires !Main(units, restart, hookOk, setups, starts, rounds).1.LoopEnded?
    ensures forall c :: c in Main(units, restart, hookOk, setups, starts, rounds).0 ==> c.op == Setup || c.op == Start
  {
  }

  /** A failed setup stops the pass: only the units up to the failing one are
      set up, and none is started. */
  lemma SetupFailureSkipsLaterUnits(units: seq<UnitRef>, restart: bool, setups: seq<bool>, starts: seq<bool>, rounds: seq<Round>)
    requires |setups| == |units| && |starts| == |units| && RoundsFit(units, rounds)
    requires !AllTrue(setups)
    ensures var r := Main(units, restart, true, setups, starts, rounds);
            r.1 == SetupFailed && r.0 == Each(Setup, units[..FirstFailure(setups) + 1])
  {
  }

  /** With restart disabled, the monitoring loop leaves at the first check k
      that finds a unit down, provided no stop was requested up to it. */
  lemma {:induction false} MonitorEndsAtFirstDown(units: seq<UnitRef>, rounds: seq<Round>, k: nat)
    requires RoundsFit(units, rounds) && k < |rounds|
    requires forall j :: 0 <= j < k ==> !rounds[j].stopRequested && AllTrue(rounds[j].running)
    requires !rounds[k].stopRequested && !AllTrue(rounds[k].running)
    ensures Monitor(units, false, rounds) == ([], UnitDown)
  {
    if k > 0 {
      assert !rounds[0].stopRequested && AllTrue(rounds[0].running);
      assert rounds[1..][k - 1] == rounds[k];
      MonitorEndsAtFirstDown(units, rounds[1..], k - 1);
    }
  }

  /** With restart disabled, the first check (without a stop request) that
      finds a unit down ends supervision: nothing is restarted and every unit
      is stopped. */
  lemma RestartDisabledEndsOnFirstDown(units: seq<UnitRef>, setups: seq<bool>, starts: seq<bool>, rounds: seq<Round>, k: nat)
    requires |setups| == |units| && |starts| == |units| && RoundsFit(units, rounds)
    requires AllTrue(setups) && AllTrue(starts) && k < |rounds|
    requires forall j :: 0 <= j < k ==> !rounds[j].stopRequested && AllTrue(rounds[j].running)
    requires !rounds[k].stopRequested && !AllTrue(rounds[k].running)
    ensures var r := Main(units, false, true, setups, starts, rounds);
            r.1 == LoopEnded(UnitDown)
            && r.0 == Each(Setup, units) + Each(Start, units) + StopCalls(units)
  {
    MonitorEndsAtFirstDown(units, rounds, k);
    MainReachesLoop(units, false, setups, starts, rounds);
    assert Attempted(setups) == |units| && Attempted(starts) == |units|;
    assert units[..|units|] == units;
  }

  /** Every way out of the monitoring loop ends with stopping every unit. */
  lemma {:induction false} LoopExitStopsAll(units: seq<UnitRef>, restart: bool, setups: seq<bool>, starts: seq<bool>, rounds: seq<Round>)
    requires |setups| == |units| && |starts| == |units| && RoundsFit(units, rounds)
    requires Main(units, restart, true, setups, starts, rounds).1 == LoopEnded(StopRequested)
             || Main(units, restart, true, setups, starts, rounds).1 == LoopEnded(UnitDown)
    ensures var calls := Main(units, restart, true, setups, starts, rounds).0;
            |calls| >= 2 * |units| && calls[|calls| - 2 * |units|..] == StopCalls(units)
  {
  }
}
