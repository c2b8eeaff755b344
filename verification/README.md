# SubagentStop session-log hook, modelled in Dafny

The hook `js/subagent-stop-log.cjs` runs when an agent host reports that a
subagent has finished. It reads the event payload, waits for the subagent's
transcript file to stop growing, finds the transcript's first timestamp,
converts it to the configured time zone, builds the log file name, calls an
external converter that renders the transcript into that log file, and deletes
the converter's error log when it is empty. Whatever happens, it exits with
status 0.

This project models the decisions `main()` makes between those effects. Every
effect is an oracle input (`SubagentStopLog.Env`):

- the parsed payload is `Option<RawInput>`;
- `existsSync`, `statSync` and `readFileSync` of the transcript are a function, a function from the check number to a size, and an optional text;
- `JSON.parse(line).timestamp` is a function from a line to a `LineParse`;
- the three `Intl.DateTimeFormat` calls are partial functions of the zone and the raw timestamp (`LocalTime.Intl`), where `None` means "threw";
- `new Date().toISOString()` is a string;
- the log-directory creation and the opening of the error log are booleans;
- the converter's effect on the error log is the number of bytes it writes to standard error.

Modules, one per component, in the order the script runs them:

| file | module | component |
|---|---|---|
| wrappers.dfy | `Wrappers` | `Option` |
| js_text.dfy | `JsText` | `\|\|` on strings, `slice(0, n)`, `replace(":", "")`, `trim()` emptiness, `split("\n")` |
| hook_input.dfy | `HookInput` | field defaults and the early abort |
| poller.dfy | `Poller` | size-stabilisation wait |
| transcript_scan.dfy | `TranscriptScan` | first-timestamp scan |
| local_time.dfy | `LocalTime` | time-zone formatting with its fallbacks |
| log_path.dfy | `LogPath` | log file name |
| sentinel.dfy | `Sentinel` | error-log cleanup rule |
| subagent_stop_log.dfy | `SubagentStopLog` | `main()` and the exit-0 wrapper |

The loops and staged assignments of the script are methods proved against
specification functions:

- `PollUntilStable` against the predicate `Settled`;
- `ExtractStartTimestamp` against `FirstTimestamp`;
- `PartsToMap` against `LastValues`;
- `FormatStartTime` against `StampFor`.

The lemmas state the properties of those functions.

Three behaviours of the code worth stating plainly:

- The fallback date is the UTC date from `toISOString().slice(0, 10)`, not the date in the system's zone.
- The scan accepts any truthy `timestamp`.
- A transcript that exists but cannot be read does not abort the run. The run goes on with no start time.

## Model

| member | source | states |
|---|---|---|
| `JsText.Take` | js/subagent-stop-log.cjs:108-109 | `slice(0, n)` gives the first n characters, or the whole string when it is shorter: a prefix of length min(\|s\|, n) |
| `JsText.Or` | js/subagent-stop-log.cjs:23-26 | `v \|\| d` on a string field: an absent or empty value gives `d`, any other value is kept |
| `JsText.IsBlank` | js/subagent-stop-log.cjs:47 | `!line.trim()`: every character is ECMAScript white space or a line terminator |
| `JsText.RemoveFirst` | js/subagent-stop-log.cjs:79 | `replace(":", "")` deletes only the first colon: the string is unchanged without one, otherwise the parts before and after the first colon are joined |
| `JsText.SplitLines` | js/subagent-stop-log.cjs:46 | `split("\n")` yields at least one piece, no piece contains a newline, and joining the pieces with newlines gives back the content |
| `JsText.SplitJoinLines` | js/subagent-stop-log.cjs:46 | splitting undoes joining for newline-free pieces, so the lines scanned are exactly the transcript's records |
| `HookInput.Defaults` | js/subagent-stop-log.cjs:23-26 | an absent or empty field becomes `""`, `"unknown"`, `"unknown"` or `"subagent"`; a non-empty field is kept |
| `HookInput.DefaultedIdsNonEmpty` | js/subagent-stop-log.cjs:24-26 | after defaulting, session id, agent id and agent type are never empty |
| `HookInput.Aborts` | js/subagent-stop-log.cjs:28 | the run stops when the transcript path is empty or `existsSync` says it does not exist |
| `HookInput.FalsyPathAborts` | js/subagent-stop-log.cjs:23-28 | an absent or empty transcript path aborts the run, whatever the file system holds |
| `Poller.ObservedSize` | js/subagent-stop-log.cjs:33-36 | a check sees the stat size, or 0 when `statSync` throws |
| `Poller.PollUntilStable` | js/subagent-stop-log.cjs:31-40 | the loop performs 1 to 10 checks. A failed stat reads as 0. It stops at the first check whose size equals the previous one, which the first check never does since the previous size starts at -1. It sleeps once after every check that does not stop it |
| `Poller.SettledUnique` | js/subagent-stop-log.cjs:31-40 | the observed sizes determine the numbers of checks and sleeps |
| `Poller.SettledSleeps` | js/subagent-stop-log.cjs:31-40 | at least one sleep happens, and checks equal sleeps exactly when the last check found no repeat |
| `Poller.SettledStopsAtFirstRepeat` | js/subagent-stop-log.cjs:32-38 | when the size first repeats at check k < 10, the wait ends after k + 1 checks and k sleeps, before the bound |
| `Poller.SettledNeverStable` | js/subagent-stop-log.cjs:32-40 | sizes that never repeat use all 10 checks and 10 sleeps |
| `TranscriptScan.Qualifies` | js/subagent-stop-log.cjs:47-50 | a line counts when it is not blank, parses, and has a truthy `timestamp` |
| `TranscriptScan.FirstTimestamp` | js/subagent-stop-log.cjs:43-58 | a start timestamp that is found is never empty |
| `TranscriptScan.ExtractStartTimestamp` | js/subagent-stop-log.cjs:43-58 | the loop with `continue`/`break` returns the first qualifying line's timestamp; an unreadable transcript gives none |
| `TranscriptScan.FirstTimestampAt` | js/subagent-stop-log.cjs:46-53 | the first line that is non-blank, parses and has a truthy `timestamp` decides the result, whatever follows it |
| `TranscriptScan.FirstTimestampNone` | js/subagent-stop-log.cjs:43-58 | the result is null exactly when no line qualifies |
| `TranscriptScan.FirstTimestampAppend` | js/subagent-stop-log.cjs:46-57 | later lines are consulted only when no earlier line qualified, so unparsable and blank lines are skipped and later timestamps ignored |
| `LocalTime.ResolveTz` | js/subagent-stop-log.cjs:12 | the zone is `TZ` when set and non-empty, and `"__TZ__"` when `TZ` is unset or empty; it is never empty |
| `LocalTime.PartsToMap` | js/subagent-stop-log.cjs:91-92 | the parts loop builds the part-type to value map |
| `LocalTime.LastValuesLastWins` | js/subagent-stop-log.cjs:91-92 | the keys are exactly the part types, and each holds the value of its last occurrence |
| `LocalTime.LocalTimestamp` | js/subagent-stop-log.cjs:93 | the template over the parts map, a missing part rendering as `undefined`; parts of widths 4, 2, 2, 2, 2 and 2 give a 19-character `YYYY-MM-DDTHH:MM:SS` string from which each part reads back |
| `LocalTime.FormatStartTime` | js/subagent-stop-log.cjs:61-103 | the staged assignment, with the fallback overwriting earlier stages, yields the three-tier result |
| `LocalTime.StampFormatted` | js/subagent-stop-log.cjs:62-93 | when every formatter succeeds, the date is the en-CA date, the time is `HH:MM` with its colon removed, and the local timestamp is assembled from the parts |
| `LocalTime.CompactTimeExample` | js/subagent-stop-log.cjs:79 | `"09:05"` becomes `"0905"` |
| `LocalTime.StampFormatFailure` | js/subagent-stop-log.cjs:94-98 | when any formatter throws: the first 10 characters of the current ISO time, `"0000"`, and the raw start timestamp |
| `LocalTime.StampWithoutStart` | js/subagent-stop-log.cjs:99-103 | with no start timestamp: the first 10 characters of the current ISO time, `"0000"`, and `""` |
| `LocalTime.TimePartColonFree` | js/subagent-stop-log.cjs:79 | on every path the compact time has no colon, given a single-colon time format |
| `LogPath.LogFileName` | js/subagent-stop-log.cjs:108-110 | the name starts with `.claude/logs/` and ends in `.md`, and its length is the fixed text's 29 characters plus the lengths of the date, the time, the 8-character id prefixes and the agent type |
| `LogPath.ParseLogFileNameInverse` | js/subagent-stop-log.cjs:107-110 | the name lies under `.claude/logs/` and ends in `.md`. With a 10-character date, a 4-character time and ids of 8 or more characters, date, time, both 8-character id prefixes and the agent type can be read back from it |
| `LogPath.LogFileNameCollision` | js/subagent-stop-log.cjs:108-110 | two such names coincide only when date, time, agent type and both 8-character id prefixes agree |
| `Sentinel.AfterConverter` | js/subagent-stop-log.cjs:113-126 | opening the error log in append mode creates it and the converter's standard error is appended; a failed open leaves it as it was |
| `Sentinel.Cleanup` | js/subagent-stop-log.cjs:129-133 | the error log is deleted if and only if it exists with size 0 and `unlinkSync` succeeds; a surviving one is unchanged, and it is empty only when the deletion failed |
| `Sentinel.SentinelSignalsErrors` | js/subagent-stop-log.cjs:124-133 | starting with no error log, it survives with a nonzero size exactly when the converter wrote error bytes, and then holds only those bytes; an empty one is left only when the deletion failed |
| `Sentinel.NonEmptySentinelSurvives` | js/subagent-stop-log.cjs:129-133 | an error log left nonempty by an earlier run is never deleted |
| `SubagentStopLog.ConverterArgs` | js/subagent-stop-log.cjs:114-122 | the converter's argument list: script path, then `--transcript`, `--output`, `--session-id`, `--date`, `--start-time`, `--agent-type` and `--agent-id`, each followed by its value |
| `SubagentStopLog.RunMain` | js/subagent-stop-log.cjs:14-134 | the run aborts exactly when there is no payload or no transcript. Otherwise its waits satisfy `Settled` and its stamp is `StampFor` of the first timestamp under the resolved zone. When the log directory exists, the converter runs with the log file name and the defaulted fields, and the error log follows the cleanup rule |
| `SubagentStopLog.RunHook` | js/subagent-stop-log.cjs:136-139 | the wrapper's exit status is 0 on every path, and its outcome is that of `main()` |

## Left out

- JsText.Take: counts Unicode scalar values, while `slice(0, 8)` counts UTF-16 code units. An id with characters outside the Basic Multilingual Plane is therefore cut at a different place, and `slice` may split a surrogate pair where the model cannot. Session and agent ids are ASCII in practice, where the two agree.
- Reading standard input and `JSON.parse` of the payload and of transcript lines. These are oracle results, not a JSON implementation.
- A payload that parses to `null` makes the property reads throw; the model treats it like unparsable input (no effect, exit 0).
- Payload fields and `timestamp` values that are not strings (numbers, booleans, objects) are not modelled. Their JavaScript truthiness and a `slice` that throws on them are therefore not captured.
- The file-system calls `existsSync`, `statSync`, `readFileSync`, `mkdirSync`, `openSync` and `unlinkSync` are oracle inputs and outputs. Whether `unlinkSync` succeeds is the `sentinelUnlinked` field of `Env`. An `existsSync` that succeeds followed by a `statSync` that throws on the error log is not modelled.
- The 200 ms `sleep` subprocess is counted, not performed. Its own failure, which would end `main()` early, is not modelled.
- `Intl.DateTimeFormat`, `new Date(...)` and `toISOString()` depend on the IANA time-zone database and the clock, so they are oracles.
- The converter child process is not modelled; its exit status and spawn failure are ignored by the hook, so the model records only its argument list. `process.execPath`, `path.join` and the `stdio` pipes are not modelled.
- The file descriptor of the error log is never closed by the script; the model has no file descriptors.
- Concurrent runs that share the error log are not modelled.
