/**
 * `get_time_str()`: `strftime` of the local time with the format
 * "%Y-%m-%d %H:%M:%S" into the static buffer `time_str[20]`.
 *
 * The clock and the calendar are not modelled: `expansion` stands for the
 * characters the format expands to at the moment of the call, and `held`
 * for what the static buffer holds when `strftime` leaves it indeterminate.
 */
module Timestamp {
  import opened Wrappers
  import opened Seqs
  import opened LogLevels
  import opened Printf
  import opened LineLayout

  /** `sizeof(time_str)`. */
  const TimeBufSize: nat := 20

  /**
   * `strftime(buf, maxsize, fmt, t)` as section 7.27.3.5 of ISO C specifies
   * it: the expansion and its terminating NUL are stored when together they
   * take at most `maxsize` characters; otherwise it returns 0 and the buffer
   * contents are indeterminate (None).
   */
  function Strftime(expansion: string, maxsize: nat): (r: Option<string>)
    ensures r.Some? <==> |expansion| < maxsize
    ensures r.Some? ==> r.value == expansion
  {
    if |expansion| + 1 <= maxsize then Some(expansion) else None
  }

  /** `get_time_str()` as written: `strftime` is told the buffer holds `sizeof(time_str) - 1` characters. */
  function GetTimeStr(expansion: string, held: string): (r: string)
    ensures |expansion| < TimeBufSize - 1 ==> r == expansion
    ensures |expansion| >= TimeBufSize - 1 ==> r == held
  {
    match Strftime(expansion, TimeBufSize - 1)
    case Some(t) => t
    case None => held
  }

  /** A full "YYYY-MM-DD HH:MM:SS" timestamp takes 19 characters and never reaches the line as written. */
  lemma AsWrittenLosesTimestamp(expansion: string, held: string)
    requires |expansion| == 19
    ensures Strftime(expansion, TimeBufSize - 1) == None
    ensures GetTimeStr(expansion, held) == held
  {
  }

  /** `get_time_str()` corrected: `strftime` is given the whole buffer, `sizeof(time_str)`. */
  function GetTimeStrCorrected(expansion: string, held: string): (r: string)
    ensures |expansion| < TimeBufSize ==> r == expansion
    ensures |expansion| >= TimeBufSize ==> r == held
  {
    match Strftime(expansion, TimeBufSize)
    case Some(t) => t
    case None => held
  }

  /** With the whole buffer, a 19-character timestamp is returned as it is, whatever the buffer held before. */
  lemma CorrectedKeepsTimestamp(expansion: string, held: string)
    requires |expansion| == 19
    ensures GetTimeStrCorrected(expansion, held) == expansion
  {
  }

  /** The record `LOG_ARGS(level)` gathers at a call site, with the time from the corrected `get_time_str()`. */
  function StampCorrected(l: LogLevel, expansion: string, held: string, file: string, lineNo: int, msg: string): (r: Record)
    ensures |expansion| < TimeBufSize ==> r.time == expansion
  {
    Record(l, GetTimeStrCorrected(expansion, held), file, lineNo, msg)
  }

  /** With the correction, every line opens with its level name and then the full timestamp in brackets. */
  lemma StampedLineShowsTime(l: LogLevel, expansion: string, held: string, file: string, lineNo: int, msg: string)
    requires |expansion| == 19
    ensures LevelStr(l) + (" [" + (expansion + "] (")) <= FormatLine(StampCorrected(l, expansion, held, file, lineNo, msg))
  {
    var r := StampCorrected(l, expansion, held, file, lineNo, msg);
    var rest := file + (":" + (FormatInt(lineNo) + ") "));
    var p := LevelStr(l) + (" [" + (expansion + "] ("));
    AppendAssoc(expansion, "] (", rest);
    AppendAssoc(" [", expansion + "] (", rest);
    AppendAssoc(LevelStr(l), " [" + (expansion + "] ("), rest);
    assert Header(r) == p + rest;
    AppendAssoc(p + rest, msg, "\n");
    AppendAssoc(p, rest, msg + "\n");
    assert FormatLine(r) == p + (rest + (msg + "\n"));
    PrefixOfAppend(p, rest + (msg + "\n"));
  }
}
