/**
 * The `LogLevel` enumeration of src/debug.h, the integer value C gives each
 * enumerator, the threshold comparison built on it, and the table of names
 * that `get_log_level_str` indexes.
 */
module LogLevels {

  /** The five severities, in declaration order. */
  datatype LogLevel = Trace | Debug | Info | Warn | Error

  /** The enumerators in the order `LogLevel` declares them. */
  const Declared: seq<LogLevel> := [Trace, Debug, Info, Warn, Error]

  /** The value of each enumerator: its position in the declaration. */
  function Rank(l: LogLevel): (r: nat)
    ensures r < |Declared| && Declared[r] == l
  {
    match l
    case Trace => 0
    case Debug => 1
    case Info => 2
    case Warn => 3
    case Error => 4
  }

  /** `level >= log_level`, the gate of `log_log`: a comparison of enum values. */
  predicate AtLeast(level: LogLevel, threshold: LogLevel)
  {
    Rank(level) >= Rank(threshold)
  }

  /** The static `level_str` table, indexed by enum value. */
  const LevelNames: seq<string> := ["TRACE", "DEBUG", "INFO", "WARN", "ERROR"]

  /** `get_log_level_str`: the name of each level, looked up in the table. */
  function LevelStr(l: LogLevel): (r: string)
    ensures r == match l
                 case Trace => "TRACE"
                 case Debug => "DEBUG"
                 case Info => "INFO"
                 case Warn => "WARN"
                 case Error => "ERROR"
  {
    LevelNames[Rank(l)]
  }

  /** Declaration order is a total order on levels: the gate never compares two levels inconsistently. */
  lemma AtLeastIsTotalOrder(a: LogLevel, b: LogLevel, c: LogLevel)
    ensures AtLeast(a, a)
    ensures AtLeast(a, b) && AtLeast(b, a) ==> a == b
    ensures AtLeast(a, b) && AtLeast(b, c) ==> AtLeast(a, c)
    ensures AtLeast(a, b) || AtLeast(b, a)
  {
  }

  /** The gate follows declaration order: each level passes the one declared before it, and not the one after it. */
  lemma GateFollowsDeclarationOrder()
    ensures AtLeast(Debug, Trace) && !AtLeast(Trace, Debug)
    ensures AtLeast(Info, Debug) && !AtLeast(Debug, Info)
    ensures AtLeast(Warn, Info) && !AtLeast(Info, Warn)
    ensures AtLeast(Error, Warn) && !AtLeast(Warn, Error)
  {
  }

  /** Trace is the least level and Error the greatest. */
  lemma TraceLeastErrorGreatest(l: LogLevel)
    ensures AtLeast(l, Trace)
    ensures AtLeast(Error, l)
    ensures AtLeast(l, Error) <==> l == Error
  {
  }

  /** Distinct levels have names that already differ in their first character. */
  lemma LevelStrFirstCharDistinct(a: LogLevel, b: LogLevel)
    ensures |LevelStr(a)| >= 4
    ensures LevelStr(a)[0] == LevelStr(b)[0] ==> a == b
  {
  }

  /** No level name contains a line break. */
  lemma LevelStrHasNoNewline(l: LogLevel)
    ensures '\n' !in LevelStr(l)
  {
  }
}
