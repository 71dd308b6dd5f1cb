/**
 * The audition runner (`main`): configuration from the environment, the
 * default target, best-effort cleanup of stale engine processes, the
 * recorder, and the launch / bounded wait / escalation of the target with the
 * recorder's stop step as a finaliser that runs exactly once.
 */
module Runner {
  import opened Optional
  import opened Text
  import opened Discovery
  import opened Processes
  import opened Escalation
  import opened Capture
  import opened Label

  const DefaultTimeout: real := 10.0

  /** The target's escalation once its timeout has expired. */
  const TargetPlan := [Step(SIGTERM, 5.0), Step(SIGKILL, 2.0)]

  /** The status for a target executable that cannot be found. */
  const NotFoundStatus := 127

  /** The status for a target that outlived the kill. */
  const UnconfirmedStatus := 124

  /** The engine processes cleaned up before the run. */
  const EngineNames := ["sclang", "scsynth"]

  /** What `main` reads from the environment, once. */
  datatype Config = Config(env: map<string, string>, debug: bool, timeout: real)

  /** The caller chose the target explicitly. */
  predicate Explicit(environ: map<string, string>) {
    "AUDITION_ONLY" in environ && environ["AUDITION_ONLY"] != ""
  }

  /** Debug mode: `AUDITION_DEBUG` set to a non-empty value. */
  predicate DebugMode(environ: map<string, string>) {
    "AUDITION_DEBUG" in environ && environ["AUDITION_DEBUG"] != ""
  }

  /** The environment the children get: the caller's, marked, with the
      discovered target as the selection when the caller chose none. */
  function ChildEnv(environ: map<string, string>, synths: Option<seq<Entry>>): map<string, string> {
    var env := environ["SC_AUDITION" := "1"];
    if Explicit(environ) then env
    else
      match Discover(synths)
      case None => env
      case Some(target) => env["AUDITION_ONLY" := target]
  }

  /** The opening of `main`: the timeout, the child environment with its marker,
      the debug flag, and the default target written into the environment only
      when none was chosen and discovery found one. */
  method Configure(environ: map<string, string>, timeoutSetting: Option<real>, synths: Option<seq<Entry>>)
    returns (c: Config)
    ensures c.timeout == if timeoutSetting.Some? then timeoutSetting.value else DefaultTimeout
    ensures "SC_AUDITION" in c.env && c.env["SC_AUDITION"] == "1"
    ensures c.debug == DebugMode(environ)
    ensures c.env == ChildEnv(environ, synths)
  {
    var timeout := if timeoutSetting.Some? then timeoutSetting.value else DefaultTimeout;
    var env := environ["SC_AUDITION" := "1"];
    ghost var marked := env;
    var debug := "AUDITION_DEBUG" in env && env["AUDITION_DEBUG"] != "";
    assert ("AUDITION_ONLY" in env && env["AUDITION_ONLY"] != "") == Explicit(environ);
    if !("AUDITION_ONLY" in env && env["AUDITION_ONLY"] != "") {
      var target := Discover(synths);
      DiscoverTrimmed(synths);
      if target.Some? && target.value != "" {
        env := env["AUDITION_ONLY" := target.value];
      }
      assert env == if target.Some? then marked["AUDITION_ONLY" := target.value] else marked;
    }
    c := Config(env, debug, timeout);
  }

  /** The child environment gains `SC_AUDITION=1` and keeps every other
      variable of the caller; an explicit selection is kept; otherwise the
      discovered target, when there is one, becomes the selection, and a blank
      selection is left as it was. */
  lemma ChildEnvSpec(environ: map<string, string>, synths: Option<seq<Entry>>)
    ensures var env := ChildEnv(environ, synths);
      "SC_AUDITION" in env && env["SC_AUDITION"] == "1"
      && (forall k :: k in environ && k != "SC_AUDITION" && k != "AUDITION_ONLY" ==> k in env && env[k] == environ[k])
      && (forall k :: k in env ==> k in environ || k == "SC_AUDITION" || k == "AUDITION_ONLY")
    ensures var env := ChildEnv(environ, synths);
      Explicit(environ) ==> "AUDITION_ONLY" in env && env["AUDITION_ONLY"] == environ["AUDITION_ONLY"]
    ensures var env := ChildEnv(environ, synths);
      !Explicit(environ) && Discover(synths).Some? ==>
        "AUDITION_ONLY" in env && env["AUDITION_ONLY"] == Discover(synths).value && env["AUDITION_ONLY"] != ""
    ensures var env := ChildEnv(environ, synths);
      !Explicit(environ) && Discover(synths).None? ==>
        ("AUDITION_ONLY" in env <==> "AUDITION_ONLY" in environ)
        && ("AUDITION_ONLY" in environ ==> env["AUDITION_ONLY"] == environ["AUDITION_ONLY"])
  {
    DiscoverTrimmed(synths);
  }

  /** One pkill request per name. */
  function PkillEvents(names: seq<string>): seq<Event> {
    seq(|names|, i requires 0 <= i < |names| => Pkill(names[i]))
  }

  /** `_kill_processes`: a missing pkill makes every request fail, which is ignored. */
  method KillProcesses(trace: Trace, names: seq<string>, pkillPresent: bool)
    modifies trace
    ensures trace.events == old(trace.events) + if pkillPresent then PkillEvents(names) else []
  {
    var i := 0;
    while i < |names|
      invariant 0 <= i <= |names|
      invariant trace.events == old(trace.events) + if pkillPresent then PkillEvents(names[..i]) else []
    {
      if pkillPresent {
        assert PkillEvents(names[..i + 1]) == PkillEvents(names[..i]) + [Pkill(names[i])];
        trace.events := trace.events + [Pkill(names[i])];
      }
      i := i + 1;
    }
    assert names[..i] == names;
  }

  /** How the target's run ended. */
  datatype Outcome =
    | NotFound          // the executable could not be launched
    | Exit(code: int)   // the code collected by one of the waits
    | Unconfirmed       // still running after the kill's wait

  /** The status `main` returns for an outcome. A real exit code of 124 or 127
      is returned as it is, so the status alone does not tell them apart. */
  function Status(o: Outcome): int {
    match o
    case NotFound => NotFoundStatus
    case Exit(c) => c
    case Unconfirmed => UnconfirmedStatus
  }

  /** The outcome of launching the target and racing it against the timeout. */
  function TargetOutcome(launch: Option<ProcessScript>): Outcome {
    match launch
    case None => NotFound
    case Some(s) =>
      match Nth(s.replies, 0)
      case Exited(c) => Exit(c)
      case Running =>
        match Final(TargetPlan, s.replies, 1)
        case Exited(c) => Exit(c)
        case Running => Unconfirmed
  }

  /** The trace of the target's part of the run. */
  function TargetEvents(launch: Option<ProcessScript>, timeout: real, deadGroups: set<int>): seq<Event> {
    match launch
    case None => []
    case Some(s) =>
      [Waited(s.pid, timeout)] +
      if Nth(s.replies, 0).Exited? then []
      else
        StepEvents(TargetPlan[..Taken(TargetPlan, s.replies, 1)], s.pid, true, deadGroups)
  }

  /** The target's run, case by case: the first wait has the resolved timeout;
      only if it timed out is the group sent SIGTERM and given 5; only if that
      timed out is it sent SIGKILL and given 2; the outcome is the code of the
      wait that saw the exit, or unconfirmed when all three timed out. */
  lemma TargetEscalation(s: ProcessScript, timeout: real, deadGroups: set<int>)
    ensures var p, d := s.pid, s.pid !in deadGroups;
      var ev := TargetEvents(Some(s), timeout, deadGroups);
      var o := TargetOutcome(Some(s));
      var r0, r1, r2 := Nth(s.replies, 0), Nth(s.replies, 1), Nth(s.replies, 2);
      (r0.Exited? ==> ev == [Waited(p, timeout)] && o == Exit(r0.code))
      && (r0 == Running && r1.Exited? ==>
        ev == [Waited(p, timeout), GroupSignal(p, SIGTERM, d), Waited(p, 5.0)] && o == Exit(r1.code))
      && (r0 == Running && r1 == Running ==>
        ev == [Waited(p, timeout), GroupSignal(p, SIGTERM, d), Waited(p, 5.0), GroupSignal(p, SIGKILL, d), Waited(p, 2.0)])
      && (r0 == Running && r1 == Running && r2.Exited? ==> o == Exit(r2.code))
      && (r0 == Running && r1 == Running && r2 == Running ==> o == Unconfirmed)
  {
    var p := s.pid;
    var s1, s2 := Step(SIGTERM, 5.0), Step(SIGKILL, 2.0);
    var k := Taken(TargetPlan, s.replies, 1);
    assert TargetPlan[1..] == [s2] && [s2][1..] == [];
    StepEventsCons(s1, [], p, true, deadGroups);
    StepEventsCons(s2, [], p, true, deadGroups);
    StepEventsCons(s1, [s2], p, true, deadGroups);
    if Nth(s.replies, 0) == Running {
      if Nth(s.replies, 1).Exited? {
        assert k == 1 && TargetPlan[..1] == [s1] + [];
      } else {
        assert k == 2 && TargetPlan[..2] == [s1] + [s2];
      }
    }
  }

  /** Sentinel attribution: 127 comes from a failed launch alone, and the
      unconfirmed outcome from three timed-out waits alone. */
  lemma SentinelAttribution(launch: Option<ProcessScript>)
    ensures TargetOutcome(launch) == NotFound <==> launch.None?
    ensures TargetOutcome(launch) == Unconfirmed <==>
      launch.Some? && forall i :: 0 <= i < 3 ==> Nth(launch.value.replies, i) == Running
  {
  }

  /** The target gets no signal when it was not launched or exited in time, and
      otherwise exactly SIGTERM, or SIGTERM then SIGKILL; SIGKILL only after the
      wait that followed SIGTERM timed out. */
  lemma TargetSignals(launch: Option<ProcessScript>, timeout: real, deadGroups: set<int>)
    ensures var sent := Sent(TargetEvents(launch, timeout, deadGroups));
      sent == [] || sent == [SIGTERM] || sent == [SIGTERM, SIGKILL]
    ensures Sent(TargetEvents(launch, timeout, deadGroups)) == [] <==>
      launch.None? || Nth(launch.value.replies, 0).Exited?
    ensures Sent(TargetEvents(launch, timeout, deadGroups)) == [SIGTERM, SIGKILL] <==>
      launch.Some? && Nth(launch.value.replies, 0) == Running && Nth(launch.value.replies, 1) == Running
  {
    if launch.Some? {
      var s := launch.value;
      var p, d := s.pid, s.pid !in deadGroups;
      TargetEscalation(s, timeout, deadGroups);
      SentOfTargetTraces(p, d, timeout);
    }
  }

  /** The signals in the three shapes a target's trace can take. */
  lemma SentOfTargetTraces(p: Pid, d: bool, timeout: real)
    ensures Sent([Waited(p, timeout)]) == []
    ensures Sent([Waited(p, timeout), GroupSignal(p, SIGTERM, d), Waited(p, 5.0)]) == [SIGTERM]
    ensures Sent([Waited(p, timeout), GroupSignal(p, SIGTERM, d), Waited(p, 5.0),
                  GroupSignal(p, SIGKILL, d), Waited(p, 2.0)]) == [SIGTERM, SIGKILL]
  {
    var w := Waited(p, timeout);
    assert Sent([w]) == [] by { assert [w][1..] == []; }
    var term, kill := [GroupSignal(p, SIGTERM, d), Waited(p, 5.0)], [GroupSignal(p, SIGKILL, d), Waited(p, 2.0)];
    SentOfPair(p, SIGTERM, d, 5.0);
    SentOfPair(p, SIGKILL, d, 2.0);
    SentAppend([w], term);
    SentAppend([w] + term, kill);
    assert [w] + term == [w, GroupSignal(p, SIGTERM, d), Waited(p, 5.0)];
    assert Sent([w] + term) == [SIGTERM];
    assert Sent([w] + term + kill) == [SIGTERM, SIGKILL];
    assert [w] + term + kill == [w, GroupSignal(p, SIGTERM, d), Waited(p, 5.0), GroupSignal(p, SIGKILL, d), Waited(p, 2.0)];
  }

  lemma SentOfPair(p: Pid, sig: Signal, d: bool, budget: real)
    ensures Sent([GroupSignal(p, sig, d), Waited(p, budget)]) == [sig]
  {
    var pair := [GroupSignal(p, sig, d), Waited(p, budget)];
    assert Sent(pair[1..]) == [] by { assert pair[1..][1..] == []; }
  }

  /** The OS, the file system and the environment as one run sees them. */
  datatype Host = Host(
    environ: map<string, string>,
    timeoutSetting: Option<real>,      // AUDITION_TIMEOUT, already parsed
    synths: Option<seq<Entry>>,        // the synths directory listing, None when it is missing
    pkillPresent: bool,
    system: string,                    // platform.system()
    ffmpegFound: bool,                 // shutil.which("ffmpeg")
    dirsReady: bool,                   // the runtime and recording directories could be created
    timestamp: string,
    recorder: Option<ProcessScript>,   // what launching ffmpeg yields; None when it raises
    sclang: Option<ProcessScript>,     // what launching sclang yields; None for FileNotFoundError
    existing: set<string>,             // recordings present when the stop step looks
    deadGroups: set<int>)              // process groups os.killpg no longer finds

  function Timeout(host: Host): real {
    if host.timeoutSetting.Some? then host.timeoutSetting.value else DefaultTimeout
  }

  /** The recorder the stop step will find: freshly launched, or none. */
  /** The recorder's checks, made on the child environment. */
  function StartDecision(host: Host): Start {
    Decide(host.system, ChildEnv(host.environ, host.synths), host.ffmpegFound, host.dirsReady, host.timestamp)
  }

  function RecorderAtStart(host: Host): Option<Recorder> {
    if StartDecision(host).Launch? && host.recorder.Some?
    then Some(Recorder(host.recorder.value.pid, None, host.recorder.value.replies, 0))
    else None
  }

  /** What the stop step of a run reports. */
  function RunReport(host: Host): Report {
    match StartDecision(host)
    case Skipped(_) => Quiet
    case Launch(name) =>
      match host.recorder
      case None => Quiet
      case Some(s) =>
        ChooseReport(StopReturncode(Recorder(s.pid, None, s.replies, 0)), Some(name), host.existing,
                     DebugMode(host.environ), s.stderrNonEmpty)
  }

  function CleanupEvents(host: Host): seq<Event> {
    if host.pkillPresent then PkillEvents(EngineNames) else []
  }

  /** The trace of a whole run. */
  function RunEvents(host: Host): seq<Event> {
    CleanupEvents(host) + TargetEvents(host.sclang, Timeout(host), host.deadGroups)
    + StopEvents(RecorderAtStart(host))
  }

  /** The launched target raced against the timeout, then SIGTERM to its group
      with 5 s, then SIGKILL with 2 s, each only after the previous wait timed out. */
  method RunTarget(trace: Trace, timeout: real, s: ProcessScript, deadGroups: set<int>) returns (exitCode: int)
    modifies trace
    ensures exitCode == Status(TargetOutcome(Some(s)))
    ensures trace.events == old(trace.events) + TargetEvents(Some(s), timeout, deadGroups)
  {
    TargetEscalation(s, timeout, deadGroups);
    var proc := new Process(s, trace);
    var r := proc.Wait(timeout);
    if r.Exited? {
      exitCode := r.code;
    } else {
      TerminateProcessGroup(trace, proc.pid, SIGTERM, deadGroups);
      r := proc.Wait(5.0);
      if r.Exited? {
        exitCode := r.code;
      } else {
        TerminateProcessGroup(trace, proc.pid, SIGKILL, deadGroups);
        r := proc.Wait(2.0);
        exitCode := if r.Exited? then r.code else UnconfirmedStatus;
      }
    }
  }

  /** Launch, bounded wait, escalation, and the recorder's stop step as the
      finaliser of every path. `report` is what the stop step prints;
      `recorderLingers` is the recorder outliving its kill, reported here
      instead of leaving the call, so it does not take the status away. */
  method Audition(trace: Trace, timeout: real, sclang: Option<ProcessScript>, capture: Handle,
                  debug: bool, existing: set<string>, deadGroups: set<int>)
    returns (exitCode: int, report: Report, recorderLingers: bool)
    requires capture.proc.Some? ==> capture.proc.value.trace == trace
    modifies trace, Objects(capture)
    ensures exitCode == Status(TargetOutcome(sclang))
    ensures trace.events == old(trace.events) + TargetEvents(sclang, timeout, deadGroups)
                            + StopEvents(old(Snapshot(capture)))
    ensures recorderLingers == StopRaises(old(Snapshot(capture)))
    ensures capture.proc.None? ==> report == Quiet
    ensures capture.proc.Some? ==>
      var p := capture.proc.value;
      var before := old(Snapshot(capture)).value;
      p.returncode == StopReturncode(before) && p.asked == StopAsked(before)
      && report == ChooseReport(p.returncode, capture.outputPath, existing, debug, p.stderrNonEmpty)
  {
    if sclang.None? {
      // FileNotFoundError: the recorder is stopped before returning 127.
      report, recorderLingers := StopAudioCapture(trace, capture, debug, existing);
      return NotFoundStatus, report, recorderLingers;
    }
    exitCode := RunTarget(trace, timeout, sclang.value, deadGroups);
    // finally: the recorder is stopped once the outcome is fixed.
    report, recorderLingers := StopAudioCapture(trace, capture, debug, existing);
  }

  /** `main` with the stop step's escaping `TimeoutExpired` absorbed (see
      `AuditionStatusAsWritten`): the target's status on every path, and
      `lingers` telling that the recorder outlived its kill. As written, a run
      with `lingers` set returns no status at all. */
  method RunAudition(host: Host) returns (exitCode: int, report: Report, lingers: bool, events: seq<Event>)
    ensures exitCode == Status(TargetOutcome(host.sclang))
    ensures report == RunReport(host)
    ensures lingers == StopRaises(RecorderAtStart(host))
    ensures AuditionStatusAsWritten(host) == if lingers then None else Some(exitCode)
    ensures events == RunEvents(host)
  {
    var config, trace, capture := Prepare(host);
    exitCode, report, lingers := Audition(trace, config.timeout, host.sclang, capture, config.debug,
                                          host.existing, host.deadGroups);
    events := trace.events;
    AsWrittenStatus(host, exitCode, lingers);
  }

  /** The part of `main` before the target's launch: configuration, cleanup of
      stale engine processes, and the recorder's start. */
  method Prepare(host: Host) returns (config: Config, trace: Trace, capture: Handle)
    ensures fresh(trace) && trace.events == CleanupEvents(host)
    ensures config.timeout == Timeout(host)
    ensures config.debug == DebugMode(host.environ)
    ensures config.env == ChildEnv(host.environ, host.synths)
    ensures Snapshot(capture) == RecorderAtStart(host)
    ensures capture.proc.Some? ==>
      fresh(capture.proc.value) && capture.proc.value.trace == trace
      && capture.proc.value.stderrNonEmpty == host.recorder.value.stderrNonEmpty
      && capture.outputPath == Some(StartDecision(host).outputName)
    ensures capture.proc.None? ==> capture.outputPath.None?
  {
    config := Configure(host.environ, host.timeoutSetting, host.synths);
    trace := new Trace();
    KillProcesses(trace, EngineNames, host.pkillPresent);
    capture := StartAudioCapture(trace, host.system, config.env, host.ffmpegFound, host.dirsReady,
                                 host.timestamp, host.recorder);
  }

  /** The recording is named after the selection the children see: the
      caller's, or else the discovered target, or else "all". */
  lemma RecordingLabel(environ: map<string, string>, synths: Option<seq<Entry>>)
    ensures Explicit(environ) ==> CaptureLabel(ChildEnv(environ, synths)) == CaptureLabel(environ)
    ensures !Explicit(environ) && Discover(synths).Some? ==>
      CaptureLabel(ChildEnv(environ, synths)) == Sanitize(Discover(synths).value)
    ensures !Explicit(environ) && Discover(synths).None? ==> CaptureLabel(ChildEnv(environ, synths)) == "all"
  {
    var env := ChildEnv(environ, synths);
    if !Explicit(environ) {
      if Discover(synths).Some? {
        DiscoverTrimmed(synths);
        assert Lookup(env, "AUDITION_ONLY", "all") == Discover(synths).value;
      } else {
        CaptureLabelSpec(env);
      }
    } else {
      assert Lookup(env, "AUDITION_ONLY", "all") == Lookup(environ, "AUDITION_ONLY", "all");
    }
  }

  /** As written, the status is lost exactly when the recorder outlives its kill. */
  lemma AsWrittenStatus(host: Host, exitCode: int, lingers: bool)
    requires exitCode == Status(TargetOutcome(host.sclang))
    requires lingers == StopRaises(RecorderAtStart(host))
    ensures AuditionStatusAsWritten(host) == if lingers then None else Some(exitCode)
  {
  }

  /** The stop step runs exactly once, and after every event of the target's run. */
  lemma StopOnceAfterOutcome(host: Host)
    ensures var pre := CleanupEvents(host) + TargetEvents(host.sclang, Timeout(host), host.deadGroups);
      |pre| < |RunEvents(host)| && RunEvents(host)[..|pre|] == pre
      && RunEvents(host)[|pre|] == CaptureStopCalled
      && StopCalls(pre) == 0 && StopCalls(RunEvents(host)) == 1
  {
    var cleanup := CleanupEvents(host);
    var target := TargetEvents(host.sclang, Timeout(host), host.deadGroups);
    var stop := StopEvents(RecorderAtStart(host));
    var pre := cleanup + target;
    assert RunEvents(host) == pre + stop;
    StopCallsAppend(cleanup, target);
    StopCallsAppend(pre, stop);
    NoStopInCleanup(host.pkillPresent);
    NoStopInTarget(host.sclang, Timeout(host), host.deadGroups);
    OneStopInStop(RecorderAtStart(host));
  }

  lemma NoStopInCleanup(pkillPresent: bool)
    ensures StopCalls(if pkillPresent then PkillEvents(EngineNames) else []) == 0
  {
    var ev := PkillEvents(EngineNames);
    assert ev == [Pkill("sclang"), Pkill("scsynth")];
    assert StopCalls(ev[1..]) == 0 by { assert ev[1..][1..] == []; }
  }

  lemma NoStopInTarget(launch: Option<ProcessScript>, timeout: real, deadGroups: set<int>)
    ensures StopCalls(TargetEvents(launch, timeout, deadGroups)) == 0
    ensures WaitTotal(TargetEvents(launch, timeout, deadGroups)) <= (if launch.Some? then timeout else 0.0) + 7.0
  {
    if launch.Some? {
      var s := launch.value;
      var w := [Waited(s.pid, timeout)];
      assert w[1..] == [];
      if Nth(s.replies, 0).Running? {
        var k := Taken(TargetPlan, s.replies, 1);
        TakenOrder(TargetPlan, s.replies, 1);
        var rest := StepEvents(TargetPlan[..k], s.pid, true, deadGroups);
        StepsWaitAndStops(TargetPlan[..k], s.pid, true, deadGroups);
        StopCallsAppend(w, rest);
        WaitTotalAppend(w, rest);
        BudgetPrefix(TargetPlan, k);
        assert BudgetSum(TargetPlan) == 7.0 by {
          assert TargetPlan[1..][1..] == [];
        }
      }
    }
  }

  lemma OneStopInStop(r: Option<Recorder>)
    ensures StopCalls(StopEvents(r)) == 1
    ensures WaitTotal(StopEvents(r)) <= 9.0
  {
    var head := [CaptureStopCalled];
    assert head[1..] == [];
    if r.Some? {
      var k := StopSteps(r.value);
      if StillRunning(r.value) {
        TakenOrder(CapturePlan, r.value.script, r.value.asked + 1);
      }
      var rest := StepEvents(CapturePlan[..k], r.value.pid, false, {});
      StepsWaitAndStops(CapturePlan[..k], r.value.pid, false, {});
      StopCallsAppend(head, rest);
      WaitTotalAppend(head, rest);
      BudgetPrefix(CapturePlan, k);
      assert BudgetSum(CapturePlan) == 9.0 by {
        assert CapturePlan[1..][1..][1..] == [];
      }
    } else {
      assert StopEvents(r) == head;
    }
  }

  /** A prefix of steps with non-negative budgets waits no longer than the whole. */
  lemma {:induction false} BudgetPrefix(steps: seq<Step>, k: nat)
    requires k <= |steps|
    requires forall i :: 0 <= i < |steps| ==> steps[i].budget >= 0.0
    ensures BudgetSum(steps[..k]) <= BudgetSum(steps)
  {
    if k > 0 {
      assert steps[..k][1..] == steps[1..][..k - 1];
      BudgetPrefix(steps[1..], k - 1);
    } else {
      NonNegativeBudget(steps);
    }
  }

  lemma {:induction false} NonNegativeBudget(steps: seq<Step>)
    requires forall i :: 0 <= i < |steps| ==> steps[i].budget >= 0.0
    ensures BudgetSum(steps) >= 0.0
  {
    if steps != [] {
      NonNegativeBudget(steps[1..]);
    }
  }

  /** A run never blocks longer than the timeout plus the target's escalation
      budgets (5 + 2) plus the recorder's (5 + 2 + 2). */
  lemma RunBounded(host: Host)
    requires Timeout(host) >= 0.0
    ensures WaitTotal(RunEvents(host)) <= Timeout(host) + 7.0 + 9.0
  {
    var cleanup := CleanupEvents(host);
    var target := TargetEvents(host.sclang, Timeout(host), host.deadGroups);
    var stop := StopEvents(RecorderAtStart(host));
    WaitTotalAppend(cleanup, target);
    WaitTotalAppend(cleanup + target, stop);
    NoStopInTarget(host.sclang, Timeout(host), host.deadGroups);
    OneStopInStop(RecorderAtStart(host));
    var ev := PkillEvents(EngineNames);
    assert ev == [Pkill("sclang"), Pkill("scsynth")];
    assert ev[1..][1..] == [];
    assert WaitTotal(cleanup) == 0.0;
  }

  /** `main` as written: a `TimeoutExpired` escaping the stop step leaves
      `main` too, and no status is returned. */
  function AuditionStatusAsWritten(host: Host): Option<int> {
    if StopRaises(RecorderAtStart(host)) then None else Some(Status(TargetOutcome(host.sclang)))
  }

  /** A recorder that outlives SIGINT, SIGTERM and SIGKILL costs the run its
      status: with sclang missing, the code as written returns nothing where
      127 is due. */
  lemma RecorderOutlivingKillLosesStatus()
    ensures var host := Host(map[], None, None, true, "Darwin", true, true, "20240101-000000",
                             Some(ProcessScript(7, [], false)), None, {}, {});
      AuditionStatusAsWritten(host) == None && Status(TargetOutcome(host.sclang)) == NotFoundStatus
  {
  }
}
