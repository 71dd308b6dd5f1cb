# Audition runner model

A Dafny model of `runner/run_audition.py`, the supervisor that runs one
SuperCollider audition (`sclang` with the audition script) under a hard
timeout, records the audio output with `ffmpeg` on macOS, and always stops
that recorder before returning an exit status.

The model follows the runner's structure:

- `Text` (`text.dfy`): Python's `str.isalnum`, `str.isspace` and
  `str.strip(chars)` on ASCII characters.
- `Label` (`label.dfy`): `_sanitize_capture_label`.
- `Discovery` (`discovery.dfy`): `_discover_default_target`. The directory
  listing is an input (`None` when the synths directory does not exist).
- `Processes` (`process.dfy`): the `subprocess.Popen` handle as a class over
  an oracle. A process is described by a `ProcessScript`: its pid, whether it
  wrote to stderr, and the successive answers it gives to `poll()`/`wait()`
  calls (`Exited(code)` or `Running`, the latter being the `TimeoutExpired`
  case; past the end of the script the process keeps running). Every signal
  and every bounded wait is appended to a shared `Trace`.
- `Escalation` (`escalation.dfy`): a termination plan (a list of signal and
  wait-budget steps) shared by the target (`SIGTERM`/5 s, `SIGKILL`/2 s, sent
  to the process group) and the recorder (`SIGINT`/5 s, `SIGTERM`/2 s,
  `SIGKILL`/2 s, sent to the process), and `_terminate_process_group`.
- `Capture` (`capture.dfy`): `_start_audio_capture` (the checks in order, the
  output name) and `_stop_audio_capture` (the escalation and the report).
- `Runner` (`runner.dfy`): `_kill_processes` and `main`: the configuration
  read from the environment, the launch, the bounded wait and escalation of
  the target, and the stop step as the finaliser of every path.

The OS is a parameter: `Runner.Host` holds the environment, the parsed
timeout, the synths listing, whether `pkill` and `ffmpeg` exist, the platform
name, whether the directories could be created, the timestamp, the two
process scripts (or `None` when launching raises), the recordings that exist
when the stop step looks, and the process groups `os.killpg` no longer finds.

Three behaviours of the code are worth knowing when reading the model:

- The sanitiser replaces each disallowed character by its own hyphen and
  does not collapse runs of them: `"a  b"` becomes `"a--b"`
  (`Label.SanitizeExamples`).
- The exit status does not keep the runner's own codes apart from the
  target's: a target that exits with 124 or 127 by itself yields the same
  status as a timeout or a missing executable. `Runner.Outcome` keeps the
  three cases apart and `Runner.Status` maps them onto the status as the code
  does.
- The stop step can raise (see Findings). The runner's docstring
  (`runner/run_audition.py:2`) calls it a hard timeout safeguard, the stop
  step sits in a `finally` (lines 230-231) and before the `return 127`
  (lines 212-213), and the waits before the last one (lines 146-150) are
  guarded; the last wait (line 153) is not. `Runner.RunAudition` models
  `main` with that one wait's exception absorbed; `Runner.AuditionStatusAsWritten`
  gives the status as the code returns it.

## Model

| member | source | states |
|---|---|---|
| Text.StripLeftSpec | runner/run_audition.py:59 | stripping from the left leaves a suffix of the input that is empty or starts with a kept character, and every dropped character is one of the stripped set |
| Text.StripRightSpec | runner/run_audition.py:59 | stripping from the right leaves a prefix of the input that is empty or ends with a kept character, and every dropped character is one of the stripped set |
| Text.StripShape | runner/run_audition.py:59 | `strip` yields a contiguous infix of its input; everything outside the infix is stripped, and the infix is empty or begins and ends with a kept character |
| Text.StripEmpty | runner/run_audition.py:60 | `strip` yields the empty string exactly when every character of the input is in the stripped set |
| Text.StripUnchanged | runner/run_audition.py:59 | a string that is empty or neither begins nor ends with a stripped character is left unchanged |
| Text.StripIdempotent | runner/run_audition.py:51 | stripping an already stripped string changes nothing |
| Label.CleanedPositions | runner/run_audition.py:58 | the cleaned string has the input's length; letters, digits, `-` and `_` stay in place and every other character becomes `-` |
| Label.CleanedKept | runner/run_audition.py:58 | every character of the cleaned string is a letter, a digit, `-` or `_` |
| Label.StripKept | runner/run_audition.py:59 | stripping hyphens from a string of such characters keeps it within the same alphabet |
| Label.SanitizeWellFormed | runner/run_audition.py:57-60 | the label is never empty, uses only letters, digits, `-` and `_`, and neither begins nor ends with `-` |
| Label.SanitizeFallback | runner/run_audition.py:60 | an input without any letter, digit or `_` yields `audition` |
| Label.SanitizeKeepsSurvivors | runner/run_audition.py:58-59 | when the input has a letter, digit or `_`, the label is the cleaned input with only leading and trailing hyphens removed, so every such character survives in place |
| Label.SanitizeIdempotent | runner/run_audition.py:57-60 | sanitising a label again leaves it unchanged |
| Label.SanitizeExamples | runner/run_audition.py:57-60 | `foo bar/baz!` gives `foo-bar-baz`, `a  b` gives `a--b` (no collapsing), `!!!` and the empty string give `audition` |
| Discovery.Insert | runner/run_audition.py:45-49 | inserting into a newest-first list keeps it newest first and adds exactly that entry |
| Discovery.InsertBehindHead | runner/run_audition.py:45-49 | an entry at least as new as the head of a newest-first list can go in front of it |
| Discovery.SortNewestFirst | runner/run_audition.py:45-49 | the sorted listing is a permutation of the listing, ordered by modification time, newest first |
| Discovery.FirstEligibleSpec | runner/run_audition.py:50-54 | the scan finds nothing exactly when every stem is blank after stripping; otherwise it finds the first non-blank one |
| Discovery.DiscoverNothing | runner/run_audition.py:42-54 | no default target exactly when the directory is missing or every stem is blank |
| Discovery.DiscoverNewest | runner/run_audition.py:42-54 | a discovered target is the stripped, non-blank stem of an entry whose modification time is the largest among the entries with non-blank stems |
| Discovery.DiscoverTrimmed | runner/run_audition.py:50-53 | a discovered target is non-empty and has no white space at either end |
| Discovery.DiscoverUniqueNewest | runner/run_audition.py:42-54 | when one entry with a non-blank stem is strictly newer than all others, its stripped stem is the target |
| Processes.Process.constructor | runner/run_audition.py:209 | a launched process starts with no collected exit code and no answers consumed |
| Processes.Process.Poll | runner/run_audition.py:143 | `poll()` asks the process once while its exit is unknown and records the code it sees; once known it returns it without asking |
| Processes.Process.Wait | runner/run_audition.py:217-226 | `wait(timeout)` returns a collected exit at once; otherwise it blocks once for at most the budget (logged), and returns the process's answer, an exit code or the timeout |
| Processes.Process.SendSignal | runner/run_audition.py:145-152 | a signal reaches the process only while its exit has not been collected |
| Escalation.TakenOrder | runner/run_audition.py:142-153 | an escalation stops at the first wait that sees the exit: every step before the last taken one timed out, and a plan cut short ended on an exit |
| Escalation.FinalRunning | runner/run_audition.py:216-229 | an escalation ends with the process still running exactly when every one of its waits timed out |
| Escalation.SentOfSteps | runner/run_audition.py:216-229 | the steps taken send exactly their signals, in plan order |
| Escalation.StepsWaitAndStops | runner/run_audition.py:216-229 | the steps taken block for at most the sum of their budgets and never enter the recorder's stop step |
| Escalation.TerminateProcessGroup | runner/run_audition.py:34-40 | a non-positive pid sends nothing; otherwise one signal to the group, delivered unless the group is gone, and the error of a gone group is swallowed |
| Capture.DecideOrder | runner/run_audition.py:63-85 | a launch of the recorder is attempted exactly when the platform is macOS, the stripped device is non-empty, ffmpeg is found and the directories are ready; a skip names the first failed check |
| Capture.CaptureLabelSpec | runner/run_audition.py:87-88 | the file-name label is well formed and is `all` when no target is selected |
| Capture.ReportOrder | runner/run_audition.py:162-170 | a warning exactly for a collected non-zero code, with diagnostics when stderr had output; otherwise the saved path when the file exists; otherwise the no-output note in debug mode only |
| Capture.StopQuiet | runner/run_audition.py:138-143 | with no recorder, or one that has already exited, the stop step sends no signal, does not wait and does not raise |
| Capture.StopEscalation | runner/run_audition.py:142-153 | after the stop step is entered, a running recorder gets SIGINT and 5 s, then only if still running SIGTERM and 2 s, then only if still running SIGKILL and 2 s; the collected code is what the last wait saw, and the step raises exactly when all three waits timed out |
| Capture.Escalate | runner/run_audition.py:144-153 | driving a recorder that `poll()` saw running appends exactly that escalation to the trace, leaves the recorder with the code the last wait saw, and raises exactly when all three waits timed out |
| Capture.StopSignalsPrefix | runner/run_audition.py:142-153 | the recorder's signals are always a prefix of SIGINT, SIGTERM, SIGKILL |
| Capture.StartAudioCapture | runner/run_audition.py:63-131 | a fresh recorder exists exactly when every check passes and the launch succeeds; its output name is the timestamp and the sanitised selection; otherwise there is neither process nor path |
| Capture.StopAudioCapture | runner/run_audition.py:134-170 | the stop step's trace is the escalation of the recorder's state on entry, the recorder ends with the code the last wait saw, the report is chosen from it, and it raises exactly when the recorder outlived the kill |
| Runner.Configure | runner/run_audition.py:173-186 | the timeout is the setting or 10; the child environment is the caller's with `SC_AUDITION=1` and, unless a selection is given, the discovered target; debug mode is a non-empty `AUDITION_DEBUG` |
| Runner.ChildEnvSpec | runner/run_audition.py:174-186 | the child environment has `SC_AUDITION=1`, keeps every other variable and adds no other; a non-empty `AUDITION_ONLY` is kept; otherwise a discovered target is set and is non-empty; with nothing discovered `AUDITION_ONLY` stays as it was |
| Runner.RecordingLabel | runner/run_audition.py:181-196 | the recording's label is that of the caller's non-empty selection; otherwise the sanitised discovered target; otherwise `all` |
| Runner.KillProcesses | runner/run_audition.py:25-31 | one pkill request per name, in order, and none when pkill is missing |
| Runner.TargetEscalation | runner/run_audition.py:216-229 | the target gets the timeout; only if it timed out the group gets SIGTERM and 5 s; only if that timed out SIGKILL and 2 s; the outcome is the code of the wait that saw the exit, or unconfirmed |
| Runner.SentinelAttribution | runner/run_audition.py:208-229 | the not-found outcome arises exactly from a failed launch, and the unconfirmed outcome exactly from three timed-out waits |
| Runner.TargetSignals | runner/run_audition.py:216-229 | the target gets no signal, SIGTERM, or SIGTERM then SIGKILL; none exactly when it was not launched or exited in time; SIGKILL exactly when the wait after SIGTERM also timed out |
| Runner.Prepare | runner/run_audition.py:173-196 | before the launch, the trace holds only the cleanup requests, the timeout is the resolved one, the child environment is the one `main` builds, debug mode is a non-empty `AUDITION_DEBUG`, and the recorder is freshly started exactly when its checks pass on the child environment, with the output name made of the timestamp and that environment's label, and no output path otherwise |
| Runner.RunTarget | runner/run_audition.py:215-229 | the launched target's status is the code of the first wait that sees its exit, or 124; its trace is the timeout wait, then SIGTERM to the group and 5 s, then SIGKILL and 2 s, each only after the previous wait timed out |
| Runner.Audition | runner/run_audition.py:208-233 | the status is 127 for a failed launch, the code collected by a wait, or 124 when all three waits timed out; the trace is the target's escalation followed by one stop step on the recorder, on every path; the recorder ends with the code its last wait saw, the report is chosen from it, and a recorder outliving its kill is reported instead of raised |
| Runner.RunAudition | runner/run_audition.py:172-233 | `main` with the Findings fix: a whole run returns the status of the target's outcome whatever the recorder does, returns the stop step's report (chosen from the code the recorder's last wait saw, quiet without a recorder), tells whether the recorder outlived its kill, leaves the trace cleanup, then target, then stop step, and the code as written returns the same status exactly when the recorder did not outlive its kill |
| Runner.StopOnceAfterOutcome | runner/run_audition.py:230-231 | the stop step is entered exactly once per run, and after every event of the target's run |
| Runner.RunBounded | runner/run_audition.py:172-233 | the bounded waits of a run add up to at most the timeout plus 7 s of target escalation plus 9 s of recorder escalation |
| Runner.RecorderOutlivingKillLosesStatus | runner/run_audition.py:151-153 | with sclang missing and a recorder that outlives SIGKILL, the code as written returns no status where 127 is due |

## Left out

- Reading and converting `AUDITION_TIMEOUT`: the timeout is given already parsed; a value that `float()` rejects, which ends the run with an exception, is not modelled.
- Output: every message printed (debug notes, warnings, the recorder's decoded stderr) is left out; the report is modelled as a choice among the messages, and stderr as whether it had output.
- Reading and closing the recorder's stderr pipe is not modelled.
- Clock: the timestamp of the recording's name is a parameter; its formatting is not modelled.
- File system: the synths listing, the creation of the runtime and recording directories, and the existence of the recording are parameters. The best-effort `mkdir` of the runtime directory in `main` has no effect on the outcome and is not modelled.
- Command lines: the argument lists passed to `ffmpeg` and `sclang`, and the child environment's delivery to `sclang`, are not modelled; `preexec_fn=os.setsid` is modelled by sending the target's signals to the group whose id is the target's pid.
- Errors other than the handled ones are not modelled: a `PermissionError` from `os.killpg`, an `OSError` other than `FileNotFoundError` when launching `sclang`, and failures of `pkill` itself. Such a launch error leaves `main` before the `try` at line 216 and outside the handler at line 212, so the recorder is never stopped.
- Runner.StopOnceAfterOutcome: holds on the modelled paths only; after a launch error other than `FileNotFoundError` (line 209) the stop step is not entered at all.
- Runner.RunBounded: only the bounded waits are counted. Two blocking calls have no bound and are outside it: each `pkill` run (line 28) has no timeout, and reading the recorder's stderr (line 158) lasts until the recorder closes it, which for a recorder that outlived SIGKILL may be never.
- Real time and concurrency: a process answers its waits from a fixed script, so the moment at which it exits within a wait is not modelled.
- Processes.Process.SendSignal: the internal poll that `Popen.send_signal` performs before signalling is folded into the check of the collected exit code.
- Text.IsAlnum and Text.IsSpace: `isalnum` and `isspace` are modelled on ASCII only, so non-ASCII letters, digits and spaces are treated as other characters.
- Discovery.SortNewestFirst: the order among files with equal modification times is not stated; the sort is stable in Python, the model does not promise which of the equally new entries comes first.
- Discovery.Entry: a file's modification time, a float in Python, is an integer here; it is only compared, so no behaviour depends on the difference.
- Discovery.DiscoverNewest: the glob on `*.scd` and the computation of the stem from the path are not modelled; the listing gives the stems and modification times of the `.scd` files.

## Findings

| source | as written | input that shows it | evidently intended | confidence | as-written member | corrected member |
|---|---|---|---|---|---|---|
| runner/run_audition.py:153 | the wait after `proc.kill()` is not guarded, so its `TimeoutExpired` leaves `_stop_audio_capture` and then `main` from its `finally` (line 231) or from the launch-failure branch (line 212); `main` returns no status; before the exception surfaces, the read of the recorder's stderr (line 158) blocks until the lingering recorder closes it | `sclang` missing, recorder running on macOS and still running after SIGINT+5 s, SIGTERM+2 s and SIGKILL+2 s | the stop step never prevents `main` from returning its status (127 here) | not executed | Runner.RecorderOutlivingKillLosesStatus | Runner.RunAudition |
