/**
 * The logger of src/debug.h: the two globals `log_level` and `log_file`,
 * the streams they write to and `errno`, the setters, the gated emission of
 * `log_log` and its five wrappers, and the `check` helpers that log, clear
 * `errno` and jump to the caller's `error` label.
 *
 * The pure functions below give the new state after each operation; the
 * class `Logger` holds the same state in fields that its methods update.
 */
module Logging {
  import opened LogLevels
  import opened LineLayout
  import opened Timestamp

  /** A C pointer: NULL or the address of an object (for `log_file`, a `FILE` stream). */
  datatype Pointer = Null | Addr(a: nat)

  /** Where a line can go: standard error or an opened file stream. */
  datatype Stream = Stderr | File(handle: nat)

  /** How control leaves a `check`: fall through, or `goto error`. */
  datatype Outcome = Continue | GotoError

  /**
   * Everything the macros read or write: the threshold, the log file,
   * the lines written to standard error and to each file stream, and `errno`.
   */
  datatype State = State(
    level: LogLevel,
    logFile: Pointer,
    stderrOut: seq<string>,
    fileOut: map<nat, seq<string>>,
    errno: int)

  /** The static initialisers: threshold `LOG_TRACE`, no log file, nothing written, `errno` zero at start-up. */
  const Initial: State := State(Trace, Null, [], map[], 0)

  /** The lines written so far to stream `d`. */
  function Lines(s: State, d: Stream): seq<string>
  {
    match d
    case Stderr => s.stderrOut
    case File(h) => if h in s.fileOut then s.fileOut[h] else []
  }

  /** The stream `log_log` writes to: the log file when it is not NULL, standard error otherwise. */
  function Destination(s: State): (d: Stream)
    ensures d == Stderr <==> s.logFile == Null
    ensures s.logFile.Addr? ==> d == File(s.logFile.a)
  {
    match s.logFile
    case Null => Stderr
    case Addr(h) => File(h)
  }

  /** `log_set_level(level)`: the threshold is overwritten, with no check. */
  function AfterSetLevel(s: State, l: LogLevel): (t: State)
    ensures t.level == l
    ensures t.logFile == s.logFile && t.errno == s.errno
    ensures forall d :: Lines(t, d) == Lines(s, d)
  {
    s.(level := l)
  }

  /**
   * `log_set_file(path)`: `log_file` becomes whatever `fopen(path, "a")`
   * returned, given here as `fopenResult`; a failed open (NULL) sends later
   * lines back to standard error, whatever file was set before. `fopen` may
   * set `errno` (a failed open always does), so `errnoAfter` is the value it
   * leaves there.
   */
  function AfterSetFile(s: State, fopenResult: Pointer, errnoAfter: int): (t: State)
    ensures Destination(t) == if fopenResult.Addr? then File(fopenResult.a) else Stderr
    ensures t.level == s.level && t.errno == errnoAfter
    ensures forall d :: Lines(t, d) == Lines(s, d)
  {
    s.(logFile := fopenResult, errno := errnoAfter)
  }

  /**
   * `log_log(level, ...)`: when `level >= log_level`, one line is appended
   * to the destination and to no other stream; otherwise nothing changes.
   */
  function AfterLog(s: State, r: Record): (t: State)
    ensures t.level == s.level && t.logFile == s.logFile && t.errno == s.errno
    ensures forall d :: Lines(t, d) == (if AtLeast(r.level, s.level) && d == Destination(s)
                                        then Lines(s, d) + [FormatLine(r)] else Lines(s, d))
  {
    if !AtLeast(r.level, s.level) then s
    else match s.logFile
      case Addr(h) => s.(fileOut := s.fileOut[h := Lines(s, File(h)) + [FormatLine(r)]])
      case Null => s.(stderrOut := s.stderrOut + [FormatLine(r)])
  }

  /**
   * `check(A, M, ...)` and `check_debug(A, M, ...)`, with the record's level
   * `LOG_ERROR` or `LOG_DEBUG`: when the condition fails, log the record
   * (through the gate), set `errno` to 0 and jump; otherwise do nothing.
   */
  function AfterCheck(s: State, cond: bool, r: Record): (res: (State, Outcome))
    ensures res.1 == GotoError <==> !cond
    ensures res.0.level == s.level && res.0.logFile == s.logFile
    ensures res.0.errno == if cond then s.errno else 0
    ensures forall d :: Lines(res.0, d) == (if !cond && AtLeast(r.level, s.level) && d == Destination(s)
                                            then Lines(s, d) + [FormatLine(r)] else Lines(s, d))
  {
    if cond then (s, Continue) else (AfterLog(s, r).(errno := 0), GotoError)
  }

  /** `clean_errno()`, with `strerror` given as a parameter: "None" when `errno` is 0. */
  function CleanErrno(errno: int, strerror: int -> string): (r: string)
    ensures errno == 0 ==> r == "None"
    ensures errno != 0 ==> r == strerror(errno)
  {
    if errno == 0 then "None" else strerror(errno)
  }

  /** One call a program makes on the logger. */
  datatype Call =
    | SetLevel(l: LogLevel)
    | SetFile(fopenResult: Pointer, errnoAfter: int)
    | Log(r: Record)
    | Check(cond: bool, r: Record)

  function Step(s: State, c: Call): State
  {
    match c
    case SetLevel(l) => AfterSetLevel(s, l)
    case SetFile(p, e) => AfterSetFile(s, p, e)
    case Log(r) => AfterLog(s, r)
    case Check(cond, r) => AfterCheck(s, cond, r).0
  }

  /** The state after a program makes the calls `cs` in order. */
  function Run(s: State, cs: seq<Call>): State
    decreases |cs|
  {
    if cs == [] then s else Run(Step(s, cs[0]), cs[1..])
  }

  /**
   * The logger as the program holds it: the globals, the two kinds of
   * stream, `errno`, and the static buffer `time_str` of `get_time_str`,
   * updated in place by the macros.
   *
   * The macros that log take `clock`, the characters the time format
   * expands to at the moment of the call; `get_time_str` is only called
   * once the gate has passed, as `LOG_ARGS` sits inside the `if`.
   */
  class Logger {
    var level: LogLevel
    var logFile: Pointer
    var stderrOut: seq<string>
    var fileOut: map<nat, seq<string>>
    var errno: int
    var timeStr: string

    /** The current values of the fields the logging state is made of. */
    function Snapshot(): State
      reads this
    {
      State(level, logFile, stderrOut, fileOut, errno)
    }

    /** Program start-up; the static buffer is zero-filled, an empty C string. */
    constructor ()
      ensures Snapshot() == Initial && timeStr == ""
    {
      level, logFile, stderrOut, fileOut, errno, timeStr := Trace, Null, [], map[], 0, "";
    }

    /** `log_set_level(l)`. */
    method SetLevel(l: LogLevel)
      modifies this
      ensures Snapshot() == AfterSetLevel(old(Snapshot()), l) && timeStr == old(timeStr)
    {
      level := l;
    }

    /** `log_set_file(path)`, where `fopen(path, "a")` returned `fopenResult` and left `errnoAfter` in `errno`. */
    method SetFile(fopenResult: Pointer, errnoAfter: int)
      modifies this
      ensures Snapshot() == AfterSetFile(old(Snapshot()), fopenResult, errnoAfter) && timeStr == old(timeStr)
    {
      logFile := fopenResult;
      errno := errnoAfter;
    }

    /** The three `fprintf` calls of `log_log` once the gate has passed, to the log file (then flushed) or to standard error. */
    method Write(r: Record)
      requires AtLeast(r.level, level)
      modifies this
      ensures Snapshot() == AfterLog(old(Snapshot()), r) && timeStr == old(timeStr)
    {
      var line := FormatLine(r);
      match logFile
      case Addr(h) =>
        var written := if h in fileOut then fileOut[h] else [];
        fileOut := fileOut[h := written + [line]];
      case Null =>
        stderrOut := stderrOut + [line];
    }

    /** `log_log(l, msg)` written at `file:lineNo`: when `l >= log_level`, read the time, then write the line. */
    method Log(l: LogLevel, clock: string, file: string, lineNo: int, msg: string)
      modifies this
      ensures timeStr == if AtLeast(l, old(level)) then GetTimeStr(clock, old(timeStr)) else old(timeStr)
      ensures Snapshot() == AfterLog(old(Snapshot()), Record(l, timeStr, file, lineNo, msg))
    {
      if AtLeast(l, level) {
        timeStr := GetTimeStr(clock, timeStr);
        Write(Record(l, timeStr, file, lineNo, msg));
      }
    }

    /** `log_trace(msg)`. */
    method LogTrace(clock: string, file: string, lineNo: int, msg: string)
      modifies this
      ensures timeStr == if AtLeast(Trace, old(level)) then GetTimeStr(clock, old(timeStr)) else old(timeStr)
      ensures Snapshot() == AfterLog(old(Snapshot()), Record(Trace, timeStr, file, lineNo, msg))
    {
      Log(Trace, clock, file, lineNo, msg);
    }

    /** `log_debug(msg)`. */
    method LogDebug(clock: string, file: string, lineNo: int, msg: string)
      modifies this
      ensures timeStr == if AtLeast(Debug, old(level)) then GetTimeStr(clock, old(timeStr)) else old(timeStr)
      ensures Snapshot() == AfterLog(old(Snapshot()), Record(Debug, timeStr, file, lineNo, msg))
    {
      Log(Debug, clock, file, lineNo, msg);
    }

    /** `log_info(msg)`. */
    method LogInfo(clock: string, file: string, lineNo: int, msg: string)
      modifies this
      ensures timeStr == if AtLeast(Info, old(level)) then GetTimeStr(clock, old(timeStr)) else old(timeStr)
      ensures Snapshot() == AfterLog(old(Snapshot()), Record(Info, timeStr, file, lineNo, msg))
    {
      Log(Info, clock, file, lineNo, msg);
    }

    /** `log_warn(msg)`. */
    method LogWarn(clock: string, file: string, lineNo: int, msg: string)
      modifies this
      ensures timeStr == if AtLeast(Warn, old(level)) then GetTimeStr(clock, old(timeStr)) else old(timeStr)
      ensures Snapshot() == AfterLog(old(Snapshot()), Record(Warn, timeStr, file, lineNo, msg))
    {
      Log(Warn, clock, file, lineNo, msg);
    }

    /** `log_error(msg)`. */
    method LogError(clock: string, file: string, lineNo: int, msg: string)
      modifies this
      ensures timeStr == if AtLeast(Error, old(level)) then GetTimeStr(clock, old(timeStr)) else old(timeStr)
      ensures Snapshot() == AfterLog(old(Snapshot()), Record(Error, timeStr, file, lineNo, msg))
    {
      Log(Error, clock, file, lineNo, msg);
    }

    /** `check(cond, msg)`: on failure, `log_error`, `errno = 0`, `goto error`. */
    method Check(cond: bool, clock: string, file: string, lineNo: int, msg: string) returns (o: Outcome)
      modifies this
      ensures o == GotoError <==> !cond
      ensures timeStr == if !cond && AtLeast(Error, old(level)) then GetTimeStr(clock, old(timeStr)) else old(timeStr)
      ensures (Snapshot(), o) == AfterCheck(old(Snapshot()), cond, Record(Error, timeStr, file, lineNo, msg))
    {
      if !cond {
        LogError(clock, file, lineNo, msg);
        errno := 0;
        return GotoError;
      }
      return Continue;
    }

    /** `check_mem(p)`: exactly `check(p, "Out of memory.")`, a pointer being true when it is not NULL. */
    method CheckMem(p: Pointer, clock: string, file: string, lineNo: int) returns (o: Outcome)
      modifies this
      ensures o == GotoError <==> p == Null
      ensures timeStr == if p == Null && AtLeast(Error, old(level)) then GetTimeStr(clock, old(timeStr)) else old(timeStr)
      ensures (Snapshot(), o) == AfterCheck(old(Snapshot()), p != Null, Record(Error, timeStr, file, lineNo, "Out of memory."))
    {
      o := Check(p != Null, clock, file, lineNo, "Out of memory.");
    }

    /** `check_debug(cond, msg)`: on failure, `log_debug`, `errno = 0`, `goto error`. */
    method CheckDebug(cond: bool, clock: string, file: string, lineNo: int, msg: string) returns (o: Outcome)
      modifies this
      ensures o == GotoError <==> !cond
      ensures timeStr == if !cond && AtLeast(Debug, old(level)) then GetTimeStr(clock, old(timeStr)) else old(timeStr)
      ensures (Snapshot(), o) == AfterCheck(old(Snapshot()), cond, Record(Debug, timeStr, file, lineNo, msg))
    {
      if !cond {
        LogDebug(clock, file, lineNo, msg);
        errno := 0;
        return GotoError;
      }
      return Continue;
    }
  }
}
