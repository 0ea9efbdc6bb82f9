# debug.h logger in Dafny

A model of the header-only C logging library `src/debug.h`. It covers:

- the `LogLevel` enumeration;
- the two process-wide globals `log_level` and `log_file`;
- the setters `log_set_level` and `log_set_file`;
- the gated emission of `log_log` and its five wrappers `log_trace` … `log_error`;
- the prefix `LOG_FMT` filled with `LOG_ARGS`, and the level names of `get_log_level_str`;
- the static timestamp buffer of `get_time_str`;
- `clean_errno`;
- the control-flow helpers `check`, `check_mem` and `check_debug`.

Modules, one concept each:

- `LogLevels` (levels.dfy): the enum, the integer value of each enumerator, the `>=` comparison that gates `log_log`, and the `level_str` table.
- `Printf` (printf.dfy): the subset of `fprintf` the prefix uses: plain text, `%%`, `%s` and `%d`. Undefined behaviour gives `None`. It also holds a reference reader (`ParseInt`) for `%d` output.
- `LineLayout` (layout.dfy): the log record and its line. `LOG_FMT` filled with `LOG_ARGS` is proved equal to a field-by-field prefix (`Header`). The line is that prefix, then the message, then `"\n"`.
- `Timestamp` (timestamp.dfy): `strftime` as ISO C specifies it, `get_time_str` as written (which the logger uses), and a corrected version (see Findings).
- `Logging` (logger.dfy):
  - the state the macros act on, and the state after each macro, as pure functions;
  - `Run`, which runs a program's series of calls;
  - the class `Logger`, whose fields the methods update in place. Each method is proved to leave exactly the state the matching pure function gives.
- `LoggingProperties` (properties.dfy): properties of whole programs, such as what a series of calls leaves on each stream, and what a failed check does.
- `Seqs` and `Wrappers`: generic sequence facts and `Option`.

A stream is modelled as the sequence of lines written to it:

- standard error is one sequence;
- each file is a sequence of its own, keyed by the `FILE *` that `fopen` returned.

The three `fprintf` calls of one emission are modelled as appending one line. Things the program cannot compute are parameters:

- `fopen`'s result and the value it leaves in `errno`;
- the characters the time format expands to at the moment of a call;
- `strerror`;
- the message the caller's own format and arguments produce.

The code decides where it and its documentation differ, and the model follows the code:

- A line starts with the level name and then the time in brackets (`"LEVEL [time] (file:line) msg\n"`). It does not start with the time.
- `log_set_file` stores `fopen`'s result as it is. When the open fails, `log_file` becomes NULL and later lines go back to standard error. The file set before is not kept.
- Only the file branch calls `fflush`. Standard error is not flushed explicitly.
- `get_time_str` runs only once the gate has passed, because `LOG_ARGS` is inside the `if`. A suppressed call leaves the timestamp buffer untouched.

## Model

| member | source | states |
|---|---|---|
| `LogLevels.Rank` | src/debug.h:22-28 | each enumerator's value is its position in the declaration `LOG_TRACE`, `LOG_DEBUG`, `LOG_INFO`, `LOG_WARN`, `LOG_ERROR` |
| `LogLevels.AtLeast` | src/debug.h:61 | the gate `level >= log_level`, a comparison of enumerator values; its order is stated by the two lemmas below |
| `LogLevels.GateFollowsDeclarationOrder` | src/debug.h:22-28 | the gate orders the levels as declared: each level passes the threshold of the one before it, and not the threshold of the one after it |
| `LogLevels.AtLeastIsTotalOrder` | src/debug.h:61 | the gate's `>=` on enum values is reflexive, antisymmetric, transitive and total |
| `LogLevels.TraceLeastErrorGreatest` | src/debug.h:22-28 | every level passes the threshold `LOG_TRACE`; `LOG_ERROR` passes every threshold, and it is the only level that passes the threshold `LOG_ERROR` |
| `LogLevels.LevelStr` | src/debug.h:149-158 | each level's name, "TRACE", "DEBUG", "INFO", "WARN" or "ERROR", is the table entry at the enumerator's value |
| `LogLevels.LevelStrFirstCharDistinct` | src/debug.h:150-156 | each name has at least four characters, and different levels have names with different first characters |
| `LogLevels.LevelStrHasNoNewline` | src/debug.h:150-156 | no level name contains a line break |
| `Printf.NatToDecimal` | src/debug.h:47 | `%d` of a non-negative value is a non-empty string of digits with no leading zero; it is "0" exactly for zero |
| `Printf.FormatInt` | src/debug.h:47 | `%d` output is non-empty, made of digits and '-', and starts with '-' exactly for a negative value |
| `Printf.NatToDecimalRoundTrip` | src/debug.h:47 | the digits `%d` prints for a non-negative value read back as that value |
| `Printf.FormatIntRoundTrip` | src/debug.h:47 | `%d` loses nothing: its output parses back to the line number printed, whatever its sign |
| `Printf.FormatText` | src/debug.h:47 | ordinary text in a format is copied through unchanged and consumes no argument |
| `Printf.FormatPlain` | src/debug.h:65 | a format without conversions, such as `"\n"`, prints itself |
| `Printf.FormatStr` | src/debug.h:47 | `%s` prints the next argument when it is a string; an integer argument there is undefined (None) |
| `Printf.FormatDec` | src/debug.h:47 | `%d` prints the next argument in decimal when it is an integer; a string argument there is undefined (None) |
| `LineLayout.LogArgs` | src/debug.h:48 | the four `LOG_ARGS` in the macro's order: level name, time, `__FILE__`, `__LINE__`; what they print is stated by `LogFmtExpands` |
| `LineLayout.FormatFourFields` | src/debug.h:47 | a format of `%s`, `%s`, `%s` and `%d`, separated by plain text, fills in four arguments in order |
| `LineLayout.LogFmtExpands` | src/debug.h:47-48 | `LOG_FMT` with `LOG_ARGS(level)` is defined and prints the level name, " [", the time, "] (", the file, ":", the line in decimal, and ") " |
| `LineLayout.FormatLine` | src/debug.h:63-65 | the text of one emission; `FormatLineFollowsLogFmt`, `FormatLineIsOneLine` and `ParseLevelOfLine` state its shape |
| `LineLayout.FormatLineFollowsLogFmt` | src/debug.h:63-65 | one emission is the `LOG_FMT` prefix, then the message, then `"\n"`, the three `fprintf` calls in order |
| `LineLayout.FormatLineIsOneLine` | src/debug.h:63-65 | when the time, file and message have no line break, an emission ends with a newline and contains no other |
| `LineLayout.ParseLevelOfLine` | src/debug.h:47-48 | every line opens with its own level's name and " [", and reads back as that level and no other |
| `Timestamp.Strftime` | src/debug.h:168 | `strftime` stores the expansion exactly when the expansion and its NUL fit in `maxsize`, and otherwise leaves the buffer indeterminate |
| `Timestamp.AsWrittenLosesTimestamp` | src/debug.h:168 | as written (`maxsize` 19), a 19-character timestamp does not fit: `strftime` fails and the buffer's old contents are returned |
| `Timestamp.GetTimeStr` | src/debug.h:164-170 | as written: an expansion of up to 18 characters is returned as it is; one of 19 or more characters fails and the buffer's previous contents are returned |
| `Timestamp.GetTimeStrCorrected` | src/debug.h:168 | corrected version of line 168, with the whole 20-byte buffer: an expansion of up to 19 characters is returned as it is; a longer one leaves the buffer as it was |
| `Timestamp.CorrectedKeepsTimestamp` | src/debug.h:168 | corrected version of line 168: with the whole buffer, a 19-character "YYYY-MM-DD HH:MM:SS" timestamp is returned whatever the buffer held before |
| `Timestamp.StampCorrected` | src/debug.h:48 | with the corrected `get_time_str`, the record `LOG_ARGS` gathers carries the timestamp whenever it fits the buffer |
| `Timestamp.StampedLineShowsTime` | src/debug.h:47-48 | with the corrected `get_time_str`, a line opens with the level name, " [", the full 19-character timestamp and "] (" |
| `Logging.Destination` | src/debug.h:62-71 | lines go to standard error exactly when `log_file` is NULL, and otherwise to the file `log_file` points to |
| `Logging.AfterSetLevel` | src/debug.h:38 | `log_set_level` replaces the threshold, accepting any level, and changes nothing else |
| `Logging.AfterSetFile` | src/debug.h:45 | after `log_set_file`, lines go to the opened file, or to standard error when `fopen` failed; `errno` holds what `fopen` left there; the threshold and every stream are unchanged |
| `Logging.AfterLog` | src/debug.h:59-73 | `log_log` appends its line to the destination when its level is at least the threshold, and changes no other stream, setting or `errno` |
| `Logging.AfterCheck` | src/debug.h:124-125 | a failing check jumps to `error`, logs its record through the gate and sets `errno` to 0; a passing check changes nothing and falls through |
| `Logging.CleanErrno` | src/debug.h:115 | `clean_errno()` is "None" when `errno` is 0 and `strerror(errno)` otherwise |
| `Logging.Logger.constructor` | src/debug.h:30-31 | at start-up the threshold is `LOG_TRACE`, `log_file` is NULL, nothing is written and the time buffer is empty |
| `Logging.Logger.SetLevel` | src/debug.h:38 | the fields become the state `AfterSetLevel` gives |
| `Logging.Logger.SetFile` | src/debug.h:45 | the fields become the state `AfterSetFile` gives: the new `log_file` and the `errno` `fopen` left |
| `Logging.Logger.Write` | src/debug.h:62-71 | once the gate has passed, the line is appended to the log file when it is set and to standard error otherwise, as `AfterLog` gives |
| `Logging.Logger.Log` | src/debug.h:59-73 | `log_log` reads the time through `get_time_str` as written (`GetTimeStr`), and only when the gate passes; it then leaves the state `AfterLog` gives for the record with that time |
| `Logging.Logger.LogTrace` | src/debug.h:80 | `log_trace` is `log_log` at `LOG_TRACE` |
| `Logging.Logger.LogDebug` | src/debug.h:87 | `log_debug` is `log_log` at `LOG_DEBUG` |
| `Logging.Logger.LogInfo` | src/debug.h:94 | `log_info` is `log_log` at `LOG_INFO` |
| `Logging.Logger.LogWarn` | src/debug.h:101 | `log_warn` is `log_log` at `LOG_WARN` |
| `Logging.Logger.LogError` | src/debug.h:108 | `log_error` is `log_log` at `LOG_ERROR` |
| `Logging.Logger.Check` | src/debug.h:124-125 | `check` jumps exactly when the condition fails, and then logs at `LOG_ERROR` and clears `errno`, as `AfterCheck` gives |
| `Logging.Logger.CheckMem` | src/debug.h:132 | `check_mem` jumps exactly on a NULL pointer, logging "Out of memory." at `LOG_ERROR` |
| `Logging.Logger.CheckDebug` | src/debug.h:141-142 | `check_debug` jumps exactly when the condition fails, and then logs at `LOG_DEBUG` and clears `errno` |
| `LoggingProperties.RunConcat` | src/debug.h:59-73 | running two series of calls (`log_set_level`, `log_set_file`, `log_log`, a check) one after the other is running their concatenation |
| `LoggingProperties.RunIsAppendOnly` | src/debug.h:59-73 | no series of `log_set_level`, `log_set_file`, `log_log` and check calls removes or rewrites a line on any stream: each stream only grows |
| `LoggingProperties.LogCallsKeepSettings` | src/debug.h:59-73 | `log_log` calls never change the threshold or the log file |
| `LoggingProperties.LogCallsAppendEmitted` | src/debug.h:61-71 | a series of `log_log` calls appends to the destination exactly the lines at or above the threshold, in call order |
| `LoggingProperties.LogCallsLeaveOtherStreams` | src/debug.h:62-71 | a series of `log_log` calls writes nothing to any stream but the destination |
| `LoggingProperties.NothingBelowErrorEmitted` | src/debug.h:61 | under the threshold `LOG_ERROR`, calls below `LOG_ERROR` let no line through |
| `LoggingProperties.ErrorThresholdScenario` | src/debug.h:38 | after `log_set_level(LOG_ERROR)`, trace to warn calls write nothing anywhere, and one error call then writes exactly its line, to the destination only |
| `LoggingProperties.ThresholdReadAtEachCall` | src/debug.h:61 | a call right after `log_set_level(l)` writes one line if its level is at least `l` and none otherwise, whatever the old threshold was |
| `LoggingProperties.FailedOpenRevertsToStderr` | src/debug.h:45 | after a failed `fopen`, the next line that passes goes to standard error and no file gains a line |
| `LoggingProperties.FailedCheckAlwaysLogs` | src/debug.h:124-125 | a failed `check` writes its line under every threshold and jumps to `error` |
| `LoggingProperties.FailedCheckDebugIsSilentAboveDebug` | src/debug.h:141-142 | with a threshold above `LOG_DEBUG`, a failed `check_debug` writes nothing, clears `errno` and jumps |
| `LoggingProperties.FailedCheckCleansErrno` | src/debug.h:115 | after any failed check, `clean_errno()` reads "None" |
| `LoggingProperties.InitialEmitsEverything` | src/debug.h:30-31 | at start-up every call passes the gate and its line goes to standard error |

## Left out

- Logging.AfterLog: keeps `errno`, although `time`, `localtime`, `strftime`, `fprintf` and `fflush` may set it (ISO C 7.5 paragraph 3); the model has no I/O errors, and `errno` changes by those calls are not modelled. The `Logger` log methods inherit this.
- A check call in a series continues with the next call of the series: where control goes after `goto error` is up to the caller and is not modelled.
- Variadic `fprintf`: the caller's message format and its arguments are modelled as the finished message string. The prefix is the only format the model interprets, through `%s`, `%d` and `%%`. No other conversion, flag, width or precision is modelled.
- C `int` width for `__LINE__`: line numbers are unbounded integers. `__LINE__` is always a small positive constant, so nothing wraps.
- `time`, `localtime` and the calendar: the characters the format expands to are a parameter. The model does not claim that a timestamp has the shape "YYYY-MM-DD HH:MM:SS".
- Timestamp.GetTimeStr and Timestamp.GetTimeStrCorrected: after a failed `strftime`, C leaves the buffer indeterminate; the model keeps its previous contents.
- `fopen`: its result is a parameter. The path, the file mode "a", and text already in the file before it was opened are not modelled.
- Two `fopen` calls on the same path give two handles. The model keeps their lines apart, while the file system would interleave them in one file.
- `fflush` and stdio buffering are not modelled. Each emission is appended as one whole line. A partial write or an I/O error is not modelled.
- `strerror` is a parameter of `CleanErrno`.
- Enum values outside `LOG_TRACE`…`LOG_ERROR` (an out-of-range index into `level_str`) cannot be expressed: the datatype has exactly five levels.
- The preprocessor is not modelled: the `do { } while (0)` wrapper, `##__VA_ARGS__`, double evaluation of macro arguments, and the `goto error` label. The jump is modelled as the `GotoError` outcome.
- Threads and concurrent writes are not modelled: the header has no synchronisation.

## Findings

| source | as written | input that shows it | evidently intended | confidence | as-written member | corrected member |
|---|---|---|---|---|---|---|
| src/debug.h:168 | `get_time_str` passes `sizeof(time_str) - 1` (19) as `strftime`'s size, yet "%Y-%m-%d %H:%M:%S" expands to 19 characters and needs 20 with its NUL; `strftime` then returns 0 and leaves the buffer indeterminate | any time in years 1000 to 9999, e.g. the expansion "2024-01-02 03:04:05" | pass `sizeof(time_str)` (20), so the full timestamp is stored | high; not executed | `Timestamp.AsWrittenLosesTimestamp` | `Timestamp.CorrectedKeepsTimestamp` |
