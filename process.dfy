/**
 * The operating system as the runner sees it. A child process is an oracle
 * that answers each bounded wait either "exited with code c" or "still
 * running"; a trace records every observable step the runner takes: signals,
 * bounded waits, calls of the capture stop step and pkill requests.
 */
module Processes {
  import opened Optional

  /** The three POSIX signals the runner sends. */
  datatype Signal = SIGINT | SIGKILL | SIGTERM

  /** The answer to one bounded wait (or poll). */
  datatype Reply = Exited(code: int) | Running

  /** Process identifiers the operating system hands out are positive. */
  type Pid = p: int | p > 0 witness 1

  /** The `k`-th answer of a script; past its end the process keeps running. */
  function Nth(script: seq<Reply>, k: nat): Reply {
    if k < |script| then script[k] else Running
  }

  /** The return code a handle records after a reply. */
  function CodeOf(r: Reply): Option<int> {
    match r
    case Exited(c) => Some(c)
    case Running => None
  }

  /** What launching a child yields: its pid, the answers it will give to
      successive waits, and whether it writes anything on standard error. */
  datatype ProcessScript = ProcessScript(pid: Pid, replies: seq<Reply>, stderrNonEmpty: bool)

  /** One observable step. */
  datatype Event =
    | GroupSignal(pgid: int, sig: Signal, delivered: bool)  // os.killpg; not delivered when the group is gone
    | ProcessSignal(pid: int, sig: Signal)                  // Popen.send_signal / terminate / kill
    | Waited(pid: int, budget: real)                        // a bounded Popen.wait that blocked
    | CaptureStopCalled                                     // entry into the capture stop step
    | Pkill(name: string)                                   // one pkill request

  /** The append-only record of the run. */
  class Trace {
    var events: seq<Event>

    constructor ()
      ensures events == []
    {
      events := [];
    }
  }

  /** A `subprocess.Popen` handle driven by its oracle script. */
  class Process {
    const pid: Pid
    const trace: Trace
    const script: seq<Reply>
    const stderrNonEmpty: bool
    /** How many answers the oracle has given so far. */
    var asked: nat
    /** `Popen.returncode`: set once a wait or poll has seen the exit. */
    var returncode: Option<int>

    constructor (s: ProcessScript, trace: Trace)
      ensures pid == s.pid && script == s.replies && stderrNonEmpty == s.stderrNonEmpty
      ensures this.trace == trace && asked == 0 && returncode == None
    {
      pid := s.pid;
      script := s.replies;
      stderrNonEmpty := s.stderrNonEmpty;
      this.trace := trace;
      asked := 0;
      returncode := None;
    }

    /** `poll()`: a zero-length wait; once the exit is known it is not asked again. */
    method Poll() returns (rc: Option<int>)
      modifies this
      ensures old(returncode).Some? ==> asked == old(asked) && returncode == old(returncode)
      ensures old(returncode).None? ==> asked == old(asked) + 1 && returncode == CodeOf(Nth(script, old(asked)))
      ensures rc == returncode
    {
      if returncode.None? {
        returncode := CodeOf(Nth(script, asked));
        asked := asked + 1;
      }
      rc := returncode;
    }

    /** `wait(timeout=budget)`: returns at once when the exit is already known,
        otherwise blocks for at most `budget` and reports what the oracle says;
        "still running" is the `TimeoutExpired` case. */
    method Wait(budget: real) returns (r: Reply)
      modifies this, trace
      ensures old(returncode).Some? ==>
        r == Exited(old(returncode).value) && asked == old(asked)
        && returncode == old(returncode) && trace.events == old(trace.events)
      ensures old(returncode).None? ==>
        r == Nth(script, old(asked)) && asked == old(asked) + 1
        && returncode == CodeOf(r) && trace.events == old(trace.events) + [Waited(pid, budget)]
    {
      if returncode.Some? {
        r := Exited(returncode.value);
      } else {
        r := Nth(script, asked);
        asked := asked + 1;
        returncode := CodeOf(r);
        trace.events := trace.events + [Waited(pid, budget)];
      }
    }

    /** `send_signal(sig)` (and `terminate()`, `kill()`): nothing is sent to a
        process whose exit has been collected. */
    method SendSignal(sig: Signal)
      modifies trace
      ensures trace.events == old(trace.events) + (if returncode.None? then [ProcessSignal(pid, sig)] else [])
    {
      if returncode.None? {
        trace.events := trace.events + [ProcessSignal(pid, sig)];
      }
    }
  }
}
