/**
 * The shape of one log line: `LOG_FMT` filled with `LOG_ARGS`, then the
 * caller's message, then a newline, as the three `fprintf` calls of
 * `log_log` write them.
 */
module LineLayout {
  import opened Wrappers
  import opened LogLevels
  import opened Printf
  import opened Seqs

  /**
   * A log record: the level, the timestamp `get_time_str` returned, the
   * `__FILE__` and `__LINE__` of the call site, and the message already
   * formatted from the caller's arguments.
   */
  datatype Record = Record(level: LogLevel, time: string, file: string, lineNo: int, msg: string)

  /** `LOG_FMT`. */
  const LogFmt: string := "%s [%s] (%s:%d) "

  /** `LOG_ARGS(level)`, in the order the macro lists them. */
  function LogArgs(r: Record): seq<Arg>
  {
    [Str(LevelStr(r.level)), Str(r.time), Str(r.file), Int(r.lineNo)]
  }

  /** The prefix of a line, spelled out field by field: level first, the time in brackets. */
  function Header(r: Record): string
  {
    LevelStr(r.level) + (" [" + (r.time + ("] (" + (r.file + (":" + (FormatInt(r.lineNo) + ") "))))))
  }

  /** A `%s` conversion followed by plain text prints the string argument, then the text, then the rest. */
  lemma FormatField(t: string, x: string, rest: string, args: seq<Arg>, v: string)
    requires NoPercent(t) && Format(rest, args) == Some(v)
    ensures Format("%s" + (t + rest), [Str(x)] + args) == Some(x + (t + v))
  {
    FormatText(t, rest, args);
    FormatStr(x, t + rest, args);
  }

  /** `fprintf` of `%s`, text, `%d`, text: the string argument, then the integer in decimal. */
  lemma FormatStrThenDec(t3: string, t4: string, c: string, n: int)
    requires NoPercent(t3) && NoPercent(t4)
    ensures Format("%s" + (t3 + ("%d" + t4)), [Str(c), Int(n)]) == Some(c + (t3 + (FormatInt(n) + t4)))
  {
    assert Format("%d" + t4, [Int(n)]) == Some(FormatInt(n) + t4) by {
      FormatPlain(t4, []);
      FormatDec(n, t4, []);
      AppendEmpty([Int(n)]);
    }
    FormatField(t3, c, "%d" + t4, [Int(n)], FormatInt(n) + t4);
    PrependToSingleton(Str(c), Int(n));
  }

  /** `fprintf` of `%s`, `%s`, `%d`, each followed by plain text, fills them in argument order. */
  lemma FormatThreeFields(t2: string, t3: string, t4: string, b: string, c: string, n: int)
    requires NoPercent(t2) && NoPercent(t3) && NoPercent(t4)
    ensures Format("%s" + (t2 + ("%s" + (t3 + ("%d" + t4)))), [Str(b), Str(c), Int(n)])
         == Some(b + (t2 + (c + (t3 + (FormatInt(n) + t4)))))
  {
    FormatStrThenDec(t3, t4, c, n);
    FormatField(t2, b, "%s" + (t3 + ("%d" + t4)), [Str(c), Int(n)], c + (t3 + (FormatInt(n) + t4)));
    PrependToPair(Str(b), Str(c), Int(n));
  }

  /** `fprintf` of four conversions `%s`, `%s`, `%s`, `%d` separated by plain text fills them in argument order. */
  lemma FormatFourFields(t1: string, t2: string, t3: string, t4: string, a: string, b: string, c: string, n: int)
    requires NoPercent(t1) && NoPercent(t2) && NoPercent(t3) && NoPercent(t4)
    ensures Format("%s" + (t1 + ("%s" + (t2 + ("%s" + (t3 + ("%d" + t4)))))), [Str(a), Str(b), Str(c), Int(n)])
         == Some(a + (t1 + (b + (t2 + (c + (t3 + (FormatInt(n) + t4)))))))
  {
    FormatThreeFields(t2, t3, t4, b, c, n);
    FormatField(t1, a, "%s" + (t2 + ("%s" + (t3 + ("%d" + t4)))), [Str(b), Str(c), Int(n)],
                b + (t2 + (c + (t3 + (FormatInt(n) + t4)))));
    PrependToTriple(Str(a), Str(b), Str(c), Int(n));
  }

  /** `fprintf(stream, LOG_FMT, LOG_ARGS(level))` writes exactly `Header`: the level name first, then the time. */
  lemma LogFmtExpands(r: Record)
    ensures Format(LogFmt, LogArgs(r)) == Some(Header(r))
  {
    assert LogFmt == "%s" + (" [" + ("%s" + ("] (" + ("%s" + (":" + ("%d" + ") "))))));
    FormatFourFields(" [", "] (", ":", ") ", LevelStr(r.level), r.time, r.file, r.lineNo);
  }

  /**
   * The text one emission writes: the prefix, then the message, then
   * `"\n"`, the three `fprintf` calls of `log_log` in order.
   */
  function FormatLine(r: Record): string
  {
    Header(r) + r.msg + "\n"
  }

  /**
   * A line is what the three `fprintf` calls of `log_log` write in turn:
   * `LOG_FMT` filled with `LOG_ARGS(level)`, the message, and `"\n"`.
   */
  lemma FormatLineFollowsLogFmt(r: Record)
    ensures Format(LogFmt, LogArgs(r)).Some?
    ensures FormatLine(r) == Format(LogFmt, LogArgs(r)).value + r.msg + "\n"
  {
    LogFmtExpands(r);
  }

  /**
   * When the timestamp, the file name and the message hold no line break,
   * the emission is one line: it ends with the only newline it contains.
   */
  lemma FormatLineIsOneLine(r: Record)
    requires '\n' !in r.time && '\n' !in r.file && '\n' !in r.msg
    ensures |FormatLine(r)| >= 1 && FormatLine(r)[|FormatLine(r)| - 1] == '\n'
    ensures '\n' !in FormatLine(r)[..|FormatLine(r)| - 1]
  {
    LevelStrHasNoNewline(r.level);
    var n := FormatInt(r.lineNo);
    assert '\n' !in n;
    var header := Header(r);
    assert '\n' !in header;
    assert FormatLine(r) == (header + r.msg) + "\n";
    assert FormatLine(r)[..|FormatLine(r)| - 1] == header + r.msg;
  }

  /** The level a line was written at, read from the name that opens it. */
  function ParseLevel(line: string): (l: Option<LogLevel>)
    ensures l.Some? ==> LevelStr(l.value) + " [" <= line
  {
    if LevelStr(Trace) + " [" <= line then Some(Trace)
    else if LevelStr(Debug) + " [" <= line then Some(Debug)
    else if LevelStr(Info) + " [" <= line then Some(Info)
    else if LevelStr(Warn) + " [" <= line then Some(Warn)
    else if LevelStr(Error) + " [" <= line then Some(Error)
    else None
  }

  /** Two level names never open the same line. */
  lemma OpensWithOneLevel(line: string, l: LogLevel, m: LogLevel)
    requires LevelStr(l) + " [" <= line && l != m
    ensures !(LevelStr(m) + " [" <= line)
  {
    LevelStrFirstCharDistinct(l, m);
    assert line[0] == (LevelStr(l) + " [")[0] == LevelStr(l)[0];
  }

  /** A line opens with its level's name and a bracket, and nothing else reads back as another level. */
  lemma ParseLevelOfLine(r: Record)
    ensures LevelStr(r.level) + " [" <= FormatLine(r)
    ensures ParseLevel(FormatLine(r)) == Some(r.level)
  {
    var line := FormatLine(r);
    var name := LevelStr(r.level);
    var tail := r.time + ("] (" + (r.file + (":" + (FormatInt(r.lineNo) + ") "))));
    AppendAssoc(name, " [", tail);
    AppendAssoc(name + " [", tail, r.msg);
    AppendAssoc(name + " [", tail + r.msg, "\n");
    assert line == (name + " [") + ((tail + r.msg) + "\n");
    PrefixOfAppend(name + " [", (tail + r.msg) + "\n");
    if r.level != Trace { OpensWithOneLevel(line, r.level, Trace); }
    if r.level != Debug { OpensWithOneLevel(line, r.level, Debug); }
    if r.level != Info { OpensWithOneLevel(line, r.level, Info); }
    if r.level != Warn { OpensWithOneLevel(line, r.level, Warn); }
  }
}
