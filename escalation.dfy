/**
 * Termination plans: an ordered list of (signal, wait budget) steps applied to
 * a process that is still running. Each step sends its signal and waits; the
 * next step runs only when that wait timed out. The target's escalation
 * (terminate, then kill) and the recorder's (interrupt, terminate, kill) are
 * both plans.
 */
module Escalation {
  import opened Processes

  datatype Step = Step(sig: Signal, budget: real)

  /** How many steps run when the process answers its waits from `script[from..]`. */
  function Taken(plan: seq<Step>, script: seq<Reply>, from: nat): (k: nat)
    decreases |plan|
    ensures k <= |plan|
  {
    if plan == [] then 0
    else if Nth(script, from).Exited? then 1
    else 1 + Taken(plan[1..], script, from + 1)
  }

  /** The answer of the last wait the plan made; `Running` when it made none. */
  function Final(plan: seq<Step>, script: seq<Reply>, from: nat): Reply {
    var k := Taken(plan, script, from);
    if k == 0 then Running else Nth(script, from + k - 1)
  }

  /** The signals of a list of steps, in order. */
  function Signals(steps: seq<Step>): (sigs: seq<Signal>)
    ensures |sigs| == |steps|
  {
    if steps == [] then [] else [steps[0].sig] + Signals(steps[1..])
  }

  /** The wait budgets of a list of steps, added up. */
  function BudgetSum(steps: seq<Step>): real {
    if steps == [] then 0.0 else steps[0].budget + BudgetSum(steps[1..])
  }

  /** `_terminate_process_group`: a non-positive pid is not signalled; a group
      that no longer exists makes `os.killpg` fail, which is absorbed. */
  function GroupSignalEvents(pid: int, sig: Signal, deadGroups: set<int>): seq<Event> {
    if pid <= 0 then [] else [GroupSignal(pid, sig, pid !in deadGroups)]
  }

  /** What delivering one signal shows in the trace: to the whole group or to
      the process alone. */
  function DeliveryEvents(pid: Pid, sig: Signal, viaGroup: bool, deadGroups: set<int>): seq<Event> {
    if viaGroup then GroupSignalEvents(pid, sig, deadGroups) else [ProcessSignal(pid, sig)]
  }

  /** The trace of running `steps`: each signal followed by its bounded wait. */
  function StepEvents(steps: seq<Step>, pid: Pid, viaGroup: bool, deadGroups: set<int>): seq<Event> {
    if steps == [] then []
    else
      DeliveryEvents(pid, steps[0].sig, viaGroup, deadGroups) + [Waited(pid, steps[0].budget)]
      + StepEvents(steps[1..], pid, viaGroup, deadGroups)
  }

  /** The trace of steps put one in front of others. */
  lemma StepEventsCons(st: Step, steps: seq<Step>, pid: Pid, viaGroup: bool, deadGroups: set<int>)
    ensures StepEvents([st] + steps, pid, viaGroup, deadGroups)
      == DeliveryEvents(pid, st.sig, viaGroup, deadGroups) + [Waited(pid, st.budget)]
         + StepEvents(steps, pid, viaGroup, deadGroups)
  {
  }

  /** The signals sent in a trace, in order. */
  function Sent(events: seq<Event>): seq<Signal> {
    if events == [] then []
    else
      (match events[0]
       case GroupSignal(_, sig, _) => [sig]
       case ProcessSignal(_, sig) => [sig]
       case _ => []) + Sent(events[1..])
  }

  /** The total time a trace may have spent blocked in waits. */
  function WaitTotal(events: seq<Event>): real {
    if events == [] then 0.0
    else (if events[0].Waited? then events[0].budget else 0.0) + WaitTotal(events[1..])
  }

  /** How many times a trace enters the capture stop step. */
  function StopCalls(events: seq<Event>): nat {
    if events == [] then 0
    else (if events[0] == CaptureStopCalled then 1 else 0) + StopCalls(events[1..])
  }

  /** The plan stops at the first wait that sees the exit and otherwise runs to
      its end: every step but the last was preceded by a timed-out wait, and a
      plan cut short ended on an exit. */
  lemma {:induction false} TakenOrder(plan: seq<Step>, script: seq<Reply>, from: nat)
    ensures var k := Taken(plan, script, from);
      k <= |plan| && (k == 0 <==> plan == [])
      && (forall i :: from <= i < from + k - 1 ==> Nth(script, i) == Running)
      && (0 < k < |plan| ==> Nth(script, from + k - 1).Exited?)
  {
    if plan != [] && Nth(script, from).Running? {
      TakenOrder(plan[1..], script, from + 1);
      var k := Taken(plan, script, from);
      assert forall i :: from + 1 <= i < from + k - 1 ==> Nth(script, i) == Running;
    }
  }

  /** A plan ends with the process still running exactly when every one of its
      waits timed out. */
  lemma FinalRunning(plan: seq<Step>, script: seq<Reply>, from: nat)
    ensures Final(plan, script, from) == Running <==>
      forall i :: from <= i < from + |plan| ==> Nth(script, i) == Running
  {
    TakenOrder(plan, script, from);
    var k := Taken(plan, script, from);
    if Final(plan, script, from) == Running && k > 0 {
      assert k == |plan|;
    }
    if Final(plan, script, from) != Running {
      assert k > 0 && Nth(script, from + k - 1) != Running;
    }
  }

  /** The trace of a run of steps sends exactly their signals, in order. */
  lemma {:induction false} SentOfSteps(steps: seq<Step>, pid: Pid, viaGroup: bool, deadGroups: set<int>)
    ensures Sent(StepEvents(steps, pid, viaGroup, deadGroups)) == Signals(steps)
  {
    if steps != [] {
      var head := DeliveryEvents(pid, steps[0].sig, viaGroup, deadGroups) + [Waited(pid, steps[0].budget)];
      var tail := StepEvents(steps[1..], pid, viaGroup, deadGroups);
      SentOfSteps(steps[1..], pid, viaGroup, deadGroups);
      SentAppend(head, tail);
      assert Sent(head) == [steps[0].sig] by {
        assert head[1..][1..] == [];
      }
    }
  }

  /** The trace of a run of steps blocks at most for the sum of their budgets,
      and never enters the capture stop step. */
  lemma {:induction false} StepsWaitAndStops(steps: seq<Step>, pid: Pid, viaGroup: bool, deadGroups: set<int>)
    ensures WaitTotal(StepEvents(steps, pid, viaGroup, deadGroups)) == BudgetSum(steps)
    ensures StopCalls(StepEvents(steps, pid, viaGroup, deadGroups)) == 0
  {
    if steps != [] {
      var head := DeliveryEvents(pid, steps[0].sig, viaGroup, deadGroups) + [Waited(pid, steps[0].budget)];
      var tail := StepEvents(steps[1..], pid, viaGroup, deadGroups);
      StepsWaitAndStops(steps[1..], pid, viaGroup, deadGroups);
      WaitTotalAppend(head, tail);
      StopCallsAppend(head, tail);
      assert head[1..][1..] == [];
    }
  }

  lemma {:induction false} SentAppend(a: seq<Event>, b: seq<Event>)
    ensures Sent(a + b) == Sent(a) + Sent(b)
  {
    if a != [] {
      assert (a + b)[0] == a[0] && (a + b)[1..] == a[1..] + b;
      SentAppend(a[1..], b);
    } else {
      assert a + b == b;
    }
  }

  lemma {:induction false} WaitTotalAppend(a: seq<Event>, b: seq<Event>)
    ensures WaitTotal(a + b) == WaitTotal(a) + WaitTotal(b)
  {
    if a != [] {
      assert (a + b)[0] == a[0] && (a + b)[1..] == a[1..] + b;
      WaitTotalAppend(a[1..], b);
    } else {
      assert a + b == b;
    }
  }

  lemma {:induction false} StopCallsAppend(a: seq<Event>, b: seq<Event>)
    ensures StopCalls(a + b) == StopCalls(a) + StopCalls(b)
  {
    if a != [] {
      assert (a + b)[0] == a[0] && (a + b)[1..] == a[1..] + b;
      StopCallsAppend(a[1..], b);
    } else {
      assert a + b == b;
    }
  }

  /** `_terminate_process_group(pid, sig)`. */
  method TerminateProcessGroup(trace: Trace, pid: int, sig: Signal, deadGroups: set<int>)
    modifies trace
    ensures trace.events == old(trace.events) + GroupSignalEvents(pid, sig, deadGroups)
    ensures pid <= 0 ==> trace.events == old(trace.events)
  {
    if pid <= 0 {
      return;
    }
    // os.killpg either delivers the signal or raises ProcessLookupError,
    // which is caught; both paths return normally.
    trace.events := trace.events + [GroupSignal(pid, sig, pid !in deadGroups)];
  }
}
