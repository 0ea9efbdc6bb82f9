/**
 * Properties of the logger over whole programs: what a series of calls
 * leaves on each stream, how the threshold set last decides every later
 * call, and what the `check` helpers do on failure.
 */
module LoggingProperties {
  import opened LogLevels
  import opened LineLayout
  import opened Logging
  import opened Seqs

  /** Running `a` then `b` is running `a + b`. */
  lemma {:induction false} RunConcat(s: State, a: seq<Call>, b: seq<Call>)
    ensures Run(s, a + b) == Run(Run(s, a), b)
    decreases |a|
  {
    if a != [] {
      assert (a + b)[0] == a[0];
      assert (a + b)[1..] == a[1..] + b;
      RunConcat(Step(s, a[0]), a[1..], b);
    } else {
      assert a + b == b;
    }
  }

  /** Every stream is append-only: no call ever removes or rewrites a line. */
  lemma {:induction false} RunIsAppendOnly(s: State, cs: seq<Call>)
    ensures forall d :: Lines(s, d) <= Lines(Run(s, cs), d)
    decreases |cs|
  {
    if cs != [] {
      var t := Step(s, cs[0]);
      RunIsAppendOnly(t, cs[1..]);
      forall d
        ensures Lines(s, d) <= Lines(t, d)
      {
      }
    }
  }

  /** What the gate of `log_log` lets through for one record under threshold `threshold`. */
  function Gate(threshold: LogLevel, r: Record): seq<string>
  {
    if AtLeast(r.level, threshold) then [FormatLine(r)] else []
  }

  /** The lines a series of `log_log` calls writes when the threshold is `threshold`: those at or above it, in call order. */
  function Emitted(threshold: LogLevel, cs: seq<Call>): seq<string>
    decreases |cs|
  {
    if cs == [] then []
    else (if cs[0].Log? then Gate(threshold, cs[0].r) else []) + Emitted(threshold, cs[1..])
  }

  /** One `log_log` call, seen from one stream. */
  lemma LogStepAt(s: State, r: Record, d: Stream)
    ensures AfterLog(s, r).level == s.level && Destination(AfterLog(s, r)) == Destination(s)
    ensures Lines(AfterLog(s, r), d) == Lines(s, d) + (if d == Destination(s) then Gate(s.level, r) else [])
  {
    if !(AtLeast(r.level, s.level) && d == Destination(s)) {
      AppendEmpty(Lines(s, d));
    }
  }

  predicate OnlyLogCalls(cs: seq<Call>)
  {
    forall i :: 0 <= i < |cs| ==> cs[i].Log?
  }

  lemma TailHasOnlyLogCalls(cs: seq<Call>)
    requires OnlyLogCalls(cs) && cs != []
    ensures OnlyLogCalls(cs[1..])
  {
    forall i | 0 <= i < |cs[1..]| ensures cs[1..][i].Log? { assert cs[1..][i] == cs[i + 1]; }
  }

  /** `log_log` calls change neither the threshold nor the log file. */
  lemma {:induction false} LogCallsKeepSettings(s: State, cs: seq<Call>)
    requires OnlyLogCalls(cs)
    ensures Run(s, cs).level == s.level && Run(s, cs).logFile == s.logFile
    decreases |cs|
  {
    if cs != [] {
      TailHasOnlyLogCalls(cs);
      LogCallsKeepSettings(Step(s, cs[0]), cs[1..]);
    }
  }

  /** The first of a series of `log_log` calls, seen from the destination. */
  lemma FirstLogCall(s: State, cs: seq<Call>) returns (t: State)
    requires OnlyLogCalls(cs) && cs != []
    ensures Run(s, cs) == Run(t, cs[1..]) && OnlyLogCalls(cs[1..])
    ensures t.level == s.level && Destination(t) == Destination(s)
    ensures Lines(t, Destination(s)) == Lines(s, Destination(s)) + Gate(s.level, cs[0].r)
  {
    t := Step(s, cs[0]);
    LogStepAt(s, cs[0].r, Destination(s));
    TailHasOnlyLogCalls(cs);
  }

  /** A series of `log_log` calls appends to the destination exactly the lines at or above the threshold, in call order. */
  lemma {:induction false} LogCallsAppendEmitted(s: State, cs: seq<Call>)
    requires OnlyLogCalls(cs)
    ensures Lines(Run(s, cs), Destination(s)) == Lines(s, Destination(s)) + Emitted(s.level, cs)
    decreases |cs|
  {
    var d := Destination(s);
    if cs == [] {
      AppendEmpty(Lines(s, d));
    } else {
      var t := FirstLogCall(s, cs);
      LogCallsAppendEmitted(t, cs[1..]);
      var g := Gate(s.level, cs[0].r);
      AppendAssoc(Lines(s, d), g, Emitted(s.level, cs[1..]));
    }
  }

  /** A series of `log_log` calls writes nothing to any stream but the destination. */
  lemma {:induction false} LogCallsLeaveOtherStreams(s: State, cs: seq<Call>, d: Stream)
    requires OnlyLogCalls(cs) && d != Destination(s)
    ensures Lines(Run(s, cs), d) == Lines(s, d)
    decreases |cs|
  {
    if cs != [] {
      var t := Step(s, cs[0]);
      assert Destination(t) == Destination(s) && Lines(t, d) == Lines(s, d) by {
        LogStepAt(s, cs[0].r, d);
        AppendEmpty(Lines(s, d));
      }
      TailHasOnlyLogCalls(cs);
      LogCallsLeaveOtherStreams(t, cs[1..], d);
    }
  }

  /** Under the threshold `LOG_ERROR`, calls below `LOG_ERROR` emit nothing. */
  lemma {:induction false} NothingBelowErrorEmitted(cs: seq<Call>)
    requires OnlyLogCalls(cs) && forall i :: 0 <= i < |cs| ==> cs[i].r.level != Error
    ensures Emitted(Error, cs) == []
    decreases |cs|
  {
    if cs != [] {
      TailHasOnlyLogCalls(cs);
      assert forall i :: 0 <= i < |cs[1..]| ==> cs[1..][i].r.level == cs[i + 1].r.level;
      NothingBelowErrorEmitted(cs[1..]);
    }
  }

  /** A program of one `log_log` call. */
  lemma RunOneLog(s: State, r: Record)
    ensures Run(s, [Log(r)]) == AfterLog(s, r)
  {
    assert [Log(r)][1..] == [];
  }

  /**
   * After `log_set_level(LOG_ERROR)`, trace, debug, info and warn calls
   * write nothing to any stream `d`, and one error call then writes exactly
   * its line, to the destination only.
   */
  lemma ErrorThresholdScenario(s: State, below: seq<Call>, e: Record, d: Stream)
    requires OnlyLogCalls(below) && forall i :: 0 <= i < |below| ==> below[i].r.level != Error
    requires e.level == Error
    ensures Lines(Run(AfterSetLevel(s, Error), below), d) == Lines(s, d)
    ensures Lines(Run(AfterSetLevel(s, Error), below + [Log(e)]), d) ==
            Lines(s, d) + (if d == Destination(s) then [FormatLine(e)] else [])
  {
    var t := AfterSetLevel(s, Error);
    var u := Run(t, below);
    assert Lines(u, d) == Lines(s, d) by {
      if d == Destination(t) {
        NothingBelowErrorEmitted(below);
        LogCallsAppendEmitted(t, below);
        AppendEmpty(Lines(t, d));
      } else {
        LogCallsLeaveOtherStreams(t, below, d);
      }
    }
    assert u.level == Error && Destination(u) == Destination(s) by {
      LogCallsKeepSettings(t, below);
    }
    assert Run(t, below + [Log(e)]) == AfterLog(u, e) by {
      RunConcat(t, below, [Log(e)]);
      RunOneLog(u, e);
    }
    LogStepAt(u, e, d);
  }

  /**
   * The threshold is read at each call: after `log_set_level(l)` a call
   * emits exactly when its level is at least `l`, whatever the threshold was.
   */
  lemma ThresholdReadAtEachCall(s: State, l: LogLevel, r: Record)
    ensures |Lines(AfterLog(AfterSetLevel(s, l), r), Destination(s))| ==
            |Lines(s, Destination(s))| + (if AtLeast(r.level, l) then 1 else 0)
  {
  }

  /**
   * A failed `fopen` clears `log_file`: later lines go to standard error,
   * not to the file that was set before.
   */
  lemma FailedOpenRevertsToStderr(s: State, e: int, r: Record)
    requires AtLeast(r.level, s.level)
    ensures Lines(AfterLog(AfterSetFile(s, Null, e), r), Stderr) == s.stderrOut + [FormatLine(r)]
    ensures forall h :: Lines(AfterLog(AfterSetFile(s, Null, e), r), File(h)) == Lines(s, File(h))
  {
  }

  /** A failed `check` or `check_mem` always writes its line: `LOG_ERROR` passes every threshold. */
  lemma FailedCheckAlwaysLogs(s: State, r: Record)
    requires r.level == Error
    ensures Lines(AfterCheck(s, false, r).0, Destination(s)) == Lines(s, Destination(s)) + [FormatLine(r)]
    ensures AfterCheck(s, false, r).1 == GotoError
  {
  }

  /** With a threshold above `LOG_DEBUG`, a failed `check_debug` jumps without writing anything. */
  lemma FailedCheckDebugIsSilentAboveDebug(s: State, r: Record)
    requires r.level == Debug && Rank(s.level) > Rank(Debug)
    ensures AfterCheck(s, false, r) == (s.(errno := 0), GotoError)
  {
  }

  /** After a failed check, `clean_errno()` reads "None", whatever `strerror` would say. */
  lemma FailedCheckCleansErrno(s: State, r: Record, strerror: int -> string)
    ensures CleanErrno(AfterCheck(s, false, r).0.errno, strerror) == "None"
  {
  }

  /** At start-up the threshold is `LOG_TRACE`, so every call emits, and it goes to standard error. */
  lemma InitialEmitsEverything(r: Record)
    ensures Lines(AfterLog(Initial, r), Stderr) == [FormatLine(r)]
  {
  }
}
