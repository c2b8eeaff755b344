/**
 * One run of the SubagentStop hook: read the payload, wait for the
 * transcript, find its start time, format it, name the log file, call the
 * converter and clean up the error sentinel. Every effect on the outside world
 * is an oracle in `Env`, and the run always exits with status 0.
 */
module SubagentStopLog {
  import opened Wrappers
  import opened JsText
  import opened HookInput
  import opened Poller
  import opened TranscriptScan
  import opened LocalTime
  import opened LogPath
  import opened Sentinel

  /** Everything the run observes of its environment. */
  datatype Env = Env(
    stdin: Option<RawInput>,          // the payload; `None` when stdin cannot be read or parsed
    tzVar: Option<string>,            // the TZ environment variable
    fileExists: string -> bool,       // `existsSync` of the transcript path
    stat: nat -> Option<nat>,         // the i-th `statSync(...).size` of the transcript; `None` when it throws
    transcript: Option<string>,       // `readFileSync` of the transcript; `None` when it throws
    parseLine: string -> LineParse,   // `JSON.parse(line).timestamp`
    intl: Intl,                       // the time-zone formatters
    nowIso: string,                   // `new Date().toISOString()`
    logDirCreated: bool,              // `mkdirSync(LogDir, {recursive: true})` returned
    converterScript: string,          // the path of log-converter.cjs beside the hook
    sentinelBefore: Option<nat>,      // the sentinel's size before the run
    sentinelOpened: bool,             // `openSync(ErrorLog, "a")` returned
    converterStderr: nat,             // bytes the converter writes to its standard error
    sentinelUnlinked: bool)           // `unlinkSync(ErrorLog)` returns when it is called

  /** What a run did. */
  datatype Outcome =
    | Aborted
      // no payload, or no transcript: nothing else happened
    | LogDirFailed(checks: nat, sleeps: nat, stamp: Stamp)
      // creating the log directory threw; the top-level handler swallowed it
    | Converted(checks: nat, sleeps: nat, stamp: Stamp, logFile: string,
                converterCall: Option<seq<string>>, sentinel: Option<nat>)
      // `converterCall` is the argument list the converter ran with, `None` when it was never started

  /** The converter's arguments after the script path: each flag followed by its value. */
  function ConverterArgs(script: string, f: Fields, logFile: string, stamp: Stamp): seq<string> {
    [script,
     "--transcript", f.transcriptPath,
     "--output", logFile,
     "--session-id", f.sessionId,
     "--date", stamp.dateStr,
     "--start-time", stamp.localTs,
     "--agent-type", f.agentType,
     "--agent-id", f.agentId]
  }

  /** The start time found in the transcript, `None` when it could not be read or has none. */
  function StartOf(env: Env): Option<string> {
    if env.transcript.None? then None else FirstTimestamp(SplitLines(env.transcript.value), env.parseLine)
  }

  /** `main()` inside its catch-all wrapper, followed by `process.exit(0)`. */
  method RunHook(env: Env) returns (outcome: Outcome, status: int)
    ensures status == 0
    ensures outcome.Aborted? <==> env.stdin.None? || Aborts(Defaults(env.stdin.value), env.fileExists)
    ensures !outcome.Aborted? ==>
      && Settled(env.stat, outcome.checks, outcome.sleeps)
      && outcome.stamp == StampFor(StartOf(env), ResolveTz(env.tzVar), env.intl, env.nowIso)
      && (outcome.Converted? <==> env.logDirCreated)
    ensures outcome.Converted? ==>
      var f := Defaults(env.stdin.value);
      && outcome.logFile == LogFileName(outcome.stamp.dateStr, outcome.stamp.timePart, f.sessionId, f.agentType, f.agentId)
      && outcome.converterCall == (if env.sentinelOpened then Some(ConverterArgs(env.converterScript, f, outcome.logFile, outcome.stamp)) else None)
      && outcome.sentinel == Cleanup(AfterConverter(env.sentinelBefore, env.sentinelOpened, env.converterStderr), env.sentinelUnlinked)
  {
    outcome := RunMain(env);
    status := 0;
  }

  /** The body of `main()`; a `return` or a thrown exception ends it early. */
  method RunMain(env: Env) returns (outcome: Outcome)
    ensures outcome.Aborted? <==> env.stdin.None? || Aborts(Defaults(env.stdin.value), env.fileExists)
    ensures !outcome.Aborted? ==>
      && Settled(env.stat, outcome.checks, outcome.sleeps)
      && outcome.stamp == StampFor(StartOf(env), ResolveTz(env.tzVar), env.intl, env.nowIso)
      && (outcome.Converted? <==> env.logDirCreated)
    ensures outcome.Converted? ==>
      var f := Defaults(env.stdin.value);
      && outcome.logFile == LogFileName(outcome.stamp.dateStr, outcome.stamp.timePart, f.sessionId, f.agentType, f.agentId)
      && outcome.converterCall == (if env.sentinelOpened then Some(ConverterArgs(env.converterScript, f, outcome.logFile, outcome.stamp)) else None)
      && outcome.sentinel == Cleanup(AfterConverter(env.sentinelBefore, env.sentinelOpened, env.converterStderr), env.sentinelUnlinked)
  {
    if env.stdin.None? {
      return Aborted;
    }
    var f := Defaults(env.stdin.value);
    if f.transcriptPath == "" || !env.fileExists(f.transcriptPath) {
      return Aborted;
    }

    var checks, sleeps := PollUntilStable(env.stat);
    var startTs := ExtractStartTimestamp(env.transcript, env.parseLine);
    var dateStr, timePart, localTs := FormatStartTime(startTs, ResolveTz(env.tzVar), env.intl, env.nowIso);
    var stamp := Stamp(dateStr, timePart, localTs);

    if !env.logDirCreated {
      return LogDirFailed(checks, sleeps, stamp);
    }

    var logFile := LogFileName(dateStr, timePart, f.sessionId, f.agentType, f.agentId);
    var converterCall := None;
    if env.sentinelOpened {
      // the converter's own failure is caught and ignored
      converterCall := Some(ConverterArgs(env.converterScript, f, logFile, stamp));
    }
    var sentinel := Cleanup(AfterConverter(env.sentinelBefore, env.sentinelOpened, env.converterStderr), env.sentinelUnlinked);
    outcome := Converted(checks, sleeps, stamp, logFile, converterCall, sentinel);
  }
}
