/**
 * Audio capture: the best-effort recorder started before the target and
 * stopped after it. Starting is a chain of checks, each a silent skip;
 * stopping escalates interrupt, terminate, kill with shrinking waits and then
 * chooses one report.
 */
module Capture {
  import opened Optional
  import opened Text
  import opened Label
  import opened Processes
  import opened Escalation

  const DefaultDevice := "MacBook Pro Speakers"

  /** The recorder's stop escalation. */
  const CapturePlan := [Step(SIGINT, 5.0), Step(SIGTERM, 2.0), Step(SIGKILL, 2.0)]

  /** `env.get(key, default)`. */
  function Lookup(env: map<string, string>, key: string, default: string): string {
    if key in env then env[key] else default
  }

  /** The device name, trimmed. */
  function CaptureDevice(env: map<string, string>): string {
    Trim(Lookup(env, "AUDITION_CAPTURE_DEVICE", DefaultDevice))
  }

  /** The label of the recording: the selected target, or "all". */
  function CaptureLabel(env: map<string, string>): string {
    var selection := Trim(Lookup(env, "AUDITION_ONLY", "all"));
    Sanitize(if selection == [] then "all" else selection)
  }

  datatype Skip = NotDarwin | EmptyDevice | NoFfmpeg | NoDirectories

  /** The outcome of the precondition chain: skip for a reason, or launch the
      recorder into the named file of the capture directory. */
  datatype Start = Skipped(reason: Skip) | Launch(outputName: string)

  /** The checks of `_start_audio_capture`, in their order. */
  function Decide(system: string, env: map<string, string>, ffmpegFound: bool, dirsReady: bool, timestamp: string): Start {
    if system != "Darwin" then Skipped(NotDarwin)
    else if CaptureDevice(env) == [] then Skipped(EmptyDevice)
    else if !ffmpegFound then Skipped(NoFfmpeg)
    else if !dirsReady then Skipped(NoDirectories)
    else Launch(timestamp + "-" + CaptureLabel(env) + ".wav")
  }

  /** The recorder is launched only when every check passes, and a skip names
      the first check that failed. */
  lemma DecideOrder(system: string, env: map<string, string>, ffmpegFound: bool, dirsReady: bool, timestamp: string)
    ensures var d := Decide(system, env, ffmpegFound, dirsReady, timestamp);
      (d.Launch? <==> system == "Darwin" && CaptureDevice(env) != [] && ffmpegFound && dirsReady)
      && (d == Skipped(NotDarwin) <==> system != "Darwin")
      && (d == Skipped(EmptyDevice) <==> system == "Darwin" && CaptureDevice(env) == [])
      && (d == Skipped(NoFfmpeg) <==> system == "Darwin" && CaptureDevice(env) != [] && !ffmpegFound)
      && (d == Skipped(NoDirectories) <==> system == "Darwin" && CaptureDevice(env) != [] && ffmpegFound && !dirsReady)
  {
  }

  /** The label in a recording's name is well formed, and it is "all" when no
      target is selected. */
  lemma CaptureLabelSpec(env: map<string, string>)
    ensures var tag := CaptureLabel(env);
      tag != [] && (forall i :: 0 <= i < |tag| ==> Kept(tag[i]))
      && tag[0] != '-' && tag[|tag| - 1] != '-'
    ensures ("AUDITION_ONLY" !in env || Trim(env["AUDITION_ONLY"]) == []) ==> CaptureLabel(env) == "all"
  {
    var selection := Trim(Lookup(env, "AUDITION_ONLY", "all"));
    SanitizeWellFormed(if selection == [] then "all" else selection);
    if "AUDITION_ONLY" !in env || Trim(env["AUDITION_ONLY"]) == [] {
      assert Cleaned("all") == "all";
      StripUnchanged("all", IsHyphen);
    }
  }

  /** What the stop step prints after the recorder is gone. */
  datatype Report =
    | Quiet
    | ExitWarning(code: int, diagnostics: bool)  // the recorder failed; its stderr is appended when there is any
    | Saved(path: string)
    | NoOutput                                   // debug mode only

  /** The reporting choice at the end of `_stop_audio_capture`. */
  function ChooseReport(returncode: Option<int>, outputPath: Option<string>, existing: set<string>,
                        debug: bool, stderrNonEmpty: bool): Report
  {
    if returncode.Some? && returncode.value != 0 then ExitWarning(returncode.value, stderrNonEmpty)
    else if outputPath.Some? && outputPath.value in existing then Saved(outputPath.value)
    else if debug then NoOutput
    else Quiet
  }

  /** A warning exactly for a collected non-zero code; otherwise the saved file
      when it exists; otherwise the note, in debug mode only. */
  lemma ReportOrder(returncode: Option<int>, outputPath: Option<string>, existing: set<string>,
                    debug: bool, stderrNonEmpty: bool)
    ensures var r := ChooseReport(returncode, outputPath, existing, debug, stderrNonEmpty);
      (r.ExitWarning? <==> returncode != None && returncode != Some(0))
      && (r.ExitWarning? ==> r.code == returncode.value && r.diagnostics == stderrNonEmpty)
      && (r.Saved? <==> (returncode == None || returncode == Some(0)) && outputPath.Some? && outputPath.value in existing)
      && (r.Saved? ==> r.path == outputPath.value)
      && (r == NoOutput <==> (returncode == None || returncode == Some(0))
                             && (outputPath.None? || outputPath.value !in existing) && debug)
  {
  }

  /** The recorder as the stop step finds it. */
  datatype Recorder = Recorder(pid: Pid, returncode: Option<int>, script: seq<Reply>, asked: nat)

  /** `poll()` reports the recorder still running. */
  predicate StillRunning(r: Recorder) {
    r.returncode.None? && Nth(r.script, r.asked) == Running
  }

  /** How many escalation steps the stop step runs. */
  function StopSteps(r: Recorder): (k: nat)
    ensures k <= |CapturePlan|
  {
    if StillRunning(r) then Taken(CapturePlan, r.script, r.asked + 1) else 0
  }

  /** The trace of the escalation inside the stop step. */
  function EscalationEvents(r: Recorder): seq<Event> {
    StepEvents(CapturePlan[..StopSteps(r)], r.pid, false, {})
  }

  /** The trace of one call of the stop step. */
  function StopEvents(r: Option<Recorder>): seq<Event> {
    [CaptureStopCalled] + if r.None? then [] else EscalationEvents(r.value)
  }

  /** The recorder's return code after the stop step. */
  function StopReturncode(r: Recorder): Option<int> {
    if r.returncode.Some? then r.returncode
    else if !StillRunning(r) then CodeOf(Nth(r.script, r.asked))
    else CodeOf(Final(CapturePlan, r.script, r.asked + 1))
  }

  /** How many oracle answers the recorder has given after the stop step. */
  function StopAsked(r: Recorder): nat {
    if r.returncode.Some? then r.asked else r.asked + 1 + StopSteps(r)
  }

  /** The last wait, after the kill, timed out: its `TimeoutExpired` is not
      caught inside the stop step. */
  predicate StopRaises(r: Option<Recorder>) {
    r.Some? && StillRunning(r.value) && Final(CapturePlan, r.value.script, r.value.asked + 1) == Running
  }

  /** With no recorder, or one already exited, the stop step sends nothing and
      does not wait. */
  lemma StopQuiet(r: Option<Recorder>)
    requires r.None? || !StillRunning(r.value)
    ensures StopEvents(r) == [CaptureStopCalled] && !StopRaises(r)
  {
  }

  /** The escalation of a running recorder, case by case: interrupt and wait 5;
      only if that timed out, terminate and wait 2; only if that timed out,
      kill and wait 2. The return code is the one the last wait saw, and the
      step raises only when all three waits timed out. */
  lemma StopEscalation(r: Recorder)
    requires StillRunning(r)
    ensures var p, a := r.pid, r.asked;
      var ev := EscalationEvents(r);
      var r1, r2, r3 := Nth(r.script, a + 1), Nth(r.script, a + 2), Nth(r.script, a + 3);
      (r1.Exited? ==>
        ev == [ProcessSignal(p, SIGINT), Waited(p, 5.0)]
        && StopReturncode(r) == Some(r1.code) && StopAsked(r) == a + 2)
      && (r1 == Running && r2.Exited? ==>
        ev == [ProcessSignal(p, SIGINT), Waited(p, 5.0), ProcessSignal(p, SIGTERM), Waited(p, 2.0)]
        && StopReturncode(r) == Some(r2.code) && StopAsked(r) == a + 3)
      && (r1 == Running && r2 == Running ==>
        ev == [ProcessSignal(p, SIGINT), Waited(p, 5.0), ProcessSignal(p, SIGTERM), Waited(p, 2.0),
               ProcessSignal(p, SIGKILL), Waited(p, 2.0)]
        && StopReturncode(r) == CodeOf(r3) && StopAsked(r) == a + 4)
      && (StopRaises(Some(r)) <==> r1 == Running && r2 == Running && r3 == Running)
  {
    var p, a := r.pid, r.asked;
    var r1, r2, r3 := Nth(r.script, a + 1), Nth(r.script, a + 2), Nth(r.script, a + 3);
    var plan := CapturePlan;
    assert plan[1..] == [Step(SIGTERM, 2.0), Step(SIGKILL, 2.0)];
    assert plan[1..][1..] == [Step(SIGKILL, 2.0)];
    assert plan[1..][1..][1..] == [];
    var k := Taken(plan, r.script, a + 1);
    var s1, s2, s3 := Step(SIGINT, 5.0), Step(SIGTERM, 2.0), Step(SIGKILL, 2.0);
    StepEventsCons(s3, [], p, false, {});
    StepEventsCons(s2, [], p, false, {});
    StepEventsCons(s1, [], p, false, {});
    StepEventsCons(s2, [s3], p, false, {});
    StepEventsCons(s1, [s2], p, false, {});
    StepEventsCons(s1, [s2, s3], p, false, {});
    if r1.Exited? {
      assert k == 1 && plan[..1] == [s1] + [];
    } else if r2.Exited? {
      assert k == 2 && plan[..2] == [s1] + [s2];
    } else {
      assert k == 3 && plan[..3] == [s1] + [s2, s3];
      assert [s2, s3] == [s2] + [s3];
    }
  }

  /** The signals the stop step sends are a prefix of interrupt, terminate, kill. */
  lemma StopSignalsPrefix(r: Option<Recorder>)
    ensures var sent := Sent(StopEvents(r));
      |sent| <= 3 && sent == [SIGINT, SIGTERM, SIGKILL][..|sent|]
  {
    var ev := StopEvents(r);
    assert Sent([CaptureStopCalled]) == [];
    if r.Some? && StillRunning(r.value) {
      var k := StopSteps(r.value);
      TakenOrder(CapturePlan, r.value.script, r.value.asked + 1);
      SentAppend([CaptureStopCalled], StepEvents(CapturePlan[..k], r.value.pid, false, {}));
      SentOfSteps(CapturePlan[..k], r.value.pid, false, {});
      assert Signals(CapturePlan) == [SIGINT, SIGTERM, SIGKILL];
      SignalsPrefix(CapturePlan, k);
    } else {
      StopQuiet(r);
    }
  }

  /** The signals of the first `k` steps are the first `k` signals. */
  lemma {:induction false} SignalsPrefix(steps: seq<Step>, k: nat)
    requires k <= |steps|
    ensures Signals(steps[..k]) == Signals(steps)[..k]
  {
    if k > 0 {
      assert steps[..k][1..] == steps[1..][..k - 1];
      SignalsPrefix(steps[1..], k - 1);
    }
  }

  /** The handle `_start_audio_capture` returns: the recorder and its output path. */
  datatype Handle = Handle(proc: Option<Process>, outputPath: Option<string>)

  function Objects(h: Handle): set<object> {
    if h.proc.Some? then {h.proc.value} else {}
  }

  /** The recorder's state, as the stop step will find it. */
  function Snapshot(h: Handle): Option<Recorder>
    reads Objects(h)
  {
    match h.proc
    case None => None
    case Some(p) => Some(Recorder(p.pid, p.returncode, p.script, p.asked))
  }

  /** `_start_audio_capture`: the checks, then the launch, which yields nothing
      when the executable cannot be started. */
  method StartAudioCapture(trace: Trace, system: string, env: map<string, string>, ffmpegFound: bool,
                           dirsReady: bool, timestamp: string, spawn: Option<ProcessScript>)
    returns (h: Handle)
    ensures h.proc.Some? <==> Decide(system, env, ffmpegFound, dirsReady, timestamp).Launch? && spawn.Some?
    ensures h.proc.Some? ==>
      fresh(h.proc.value) && h.proc.value.trace == trace
      && Snapshot(h) == Some(Recorder(spawn.value.pid, None, spawn.value.replies, 0))
      && h.proc.value.stderrNonEmpty == spawn.value.stderrNonEmpty
      && h.outputPath == Some(Decide(system, env, ffmpegFound, dirsReady, timestamp).outputName)
    ensures h.proc.None? ==> h.outputPath.None?
  {
    var decision := Decide(system, env, ffmpegFound, dirsReady, timestamp);
    if decision.Launch? && spawn.Some? {
      var p := new Process(spawn.value, trace);
      h := Handle(Some(p), Some(decision.outputName));
    } else {
      h := Handle(None, None);
    }
  }

  /** The escalation inside `_stop_audio_capture`, entered once `poll()` saw
      the recorder `r` running: interrupt and wait 5, then terminate and wait
      2, then kill and wait 2, each only after the previous wait timed out.
      `raised` is the `TimeoutExpired` of the last wait, which is not caught. */
  method Escalate(p: Process, ghost r: Recorder) returns (raised: bool)
    requires StillRunning(r) && r.pid == p.pid && r.script == p.script
    requires p.returncode.None? && p.asked == r.asked + 1
    modifies p, p.trace
    ensures p.trace.events == old(p.trace.events) + EscalationEvents(r)
    ensures p.returncode == StopReturncode(r) && p.asked == StopAsked(r)
    ensures raised == StopRaises(Some(r))
  {
    StopEscalation(r);
    ghost var start := p.trace.events;
    var pid := p.pid;
    raised := false;
    p.SendSignal(SIGINT);
    var reply := p.Wait(5.0);
    if reply == Running {
      p.SendSignal(SIGTERM);
      reply := p.Wait(2.0);
      if reply == Running {
        p.SendSignal(SIGKILL);
        reply := p.Wait(2.0);
        raised := reply == Running;
        assert p.trace.events == start + [ProcessSignal(pid, SIGINT), Waited(pid, 5.0), ProcessSignal(pid, SIGTERM),
                                          Waited(pid, 2.0), ProcessSignal(pid, SIGKILL), Waited(pid, 2.0)];
      } else {
        assert p.trace.events == start + [ProcessSignal(pid, SIGINT), Waited(pid, 5.0), ProcessSignal(pid, SIGTERM),
                                          Waited(pid, 2.0)];
      }
    } else {
      assert p.trace.events == start + [ProcessSignal(pid, SIGINT), Waited(pid, 5.0)];
    }
  }

  /** `_stop_audio_capture`. `raised` tells that the `TimeoutExpired` of the
      wait after the kill leaves the call, after the report is chosen. */
  method StopAudioCapture(trace: Trace, h: Handle, debug: bool, existing: set<string>)
    returns (report: Report, raised: bool)
    requires h.proc.Some? ==> h.proc.value.trace == trace
    modifies trace, Objects(h)
    ensures trace.events == old(trace.events) + StopEvents(old(Snapshot(h)))
    ensures raised == StopRaises(old(Snapshot(h)))
    ensures h.proc.None? ==> report == Quiet
    ensures h.proc.Some? ==>
      var p := h.proc.value;
      var before := old(Snapshot(h)).value;
      p.returncode == StopReturncode(before) && p.asked == StopAsked(before)
      && report == ChooseReport(p.returncode, h.outputPath, existing, debug, p.stderrNonEmpty)
  {
    report, raised := Quiet, false;
    trace.events := trace.events + [CaptureStopCalled];
    if h.proc.None? {
      return;
    }
    var p := h.proc.value;
    ghost var before := Recorder(p.pid, p.returncode, p.script, p.asked);
    var rc := p.Poll();
    if rc.None? {
      assert StillRunning(before);
      raised := Escalate(p, before);
    } else {
      StopQuiet(Some(before));
    }
    report := ChooseReport(p.returncode, h.outputPath, existing, debug, p.stderrNonEmpty);
  }
}
