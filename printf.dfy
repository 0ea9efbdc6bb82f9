/**
 * The part of `fprintf` that the log prefix uses: ordinary characters are
 * copied, `%%` prints a percent sign, `%s` a string argument and `%d` an
 * `int` argument in decimal. Every other conversion, a missing argument or
 * an argument of the wrong kind is undefined behaviour in C and gives None
 * here. Extra arguments are ignored, as C ignores them.
 */
module Printf {
  import opened Wrappers

  /** An argument passed to `fprintf`. */
  datatype Arg = Str(s: string) | Int(i: int)

  predicate IsDigit(c: char)
  {
    '0' <= c <= '9'
  }

  predicate AllDigits(s: string)
  {
    forall i :: 0 <= i < |s| ==> IsDigit(s[i])
  }

  predicate NoPercent(s: string)
  {
    forall i :: 0 <= i < |s| ==> s[i] != '%'
  }

  function DigitChar(d: nat): (c: char)
    requires d < 10
    ensures IsDigit(c) && c as int - '0' as int == d
  {
    (d + '0' as int) as char
  }

  /** The digits `%d` prints for a non-negative value: no sign, no leading zero. */
  function NatToDecimal(n: nat): (r: string)
    ensures |r| >= 1 && AllDigits(r)
    ensures r[0] == '0' <==> n == 0
    ensures r[0] == '0' ==> |r| == 1
    decreases n
  {
    if n < 10 then [DigitChar(n)] else NatToDecimal(n / 10) + [DigitChar(n % 10)]
  }

  /** `%d` of an `int`: a minus sign before the digits of a negative value. */
  function FormatInt(i: int): (r: string)
    ensures |r| >= 1
    ensures forall k :: 0 <= k < |r| ==> IsDigit(r[k]) || r[k] == '-'
    ensures r[0] == '-' <==> i < 0
  {
    if i < 0 then "-" + NatToDecimal(-i) else NatToDecimal(i)
  }

  /** The value of a string of decimal digits: the reference reading of `%d`'s output. */
  function DecimalValue(s: string): nat
    requires AllDigits(s)
  {
    if s == [] then 0
    else DecimalValue(s[..|s| - 1]) * 10 + (s[|s| - 1] as int - '0' as int)
  }

  /** Reads back what `%d` prints. */
  function ParseInt(s: string): Option<int>
  {
    if |s| >= 2 && s[0] == '-' && AllDigits(s[1..]) then Some(-(DecimalValue(s[1..]) as int))
    else if |s| >= 1 && AllDigits(s) then Some(DecimalValue(s))
    else None
  }

  lemma {:induction false} NatToDecimalRoundTrip(n: nat)
    ensures DecimalValue(NatToDecimal(n)) == n
    decreases n
  {
    if n >= 10 {
      var s := NatToDecimal(n);
      assert s[..|s| - 1] == NatToDecimal(n / 10);
      NatToDecimalRoundTrip(n / 10);
    }
  }

  /** `%d` loses nothing: its output reads back as the value printed. */
  lemma FormatIntRoundTrip(i: int)
    ensures ParseInt(FormatInt(i)) == Some(i)
  {
    if i < 0 {
      assert FormatInt(i)[1..] == NatToDecimal(-i);
      NatToDecimalRoundTrip(-i);
    } else {
      NatToDecimalRoundTrip(i);
    }
  }

  /** Prefixes a successful result with `p`. */
  function Prepend(p: string, o: Option<string>): Option<string>
  {
    if o.Some? then Some(p + o.value) else None
  }

  /** `fprintf(stream, fmt, args...)`: the characters written, or None where C leaves the call undefined. */
  function Format(fmt: string, args: seq<Arg>): Option<string>
    decreases |fmt|
  {
    if fmt == [] then Some("")
    else if fmt[0] != '%' then
      Prepend([fmt[0]], Format(fmt[1..], args))
    else if |fmt| == 1 then None
    else if fmt[1] == '%' then Prepend("%", Format(fmt[2..], args))
    else if args == [] then None
    else match (fmt[1], args[0])
      case ('s', Str(x)) => Prepend(x, Format(fmt[2..], args[1..]))
      case ('d', Int(i)) => Prepend(FormatInt(i), Format(fmt[2..], args[1..]))
      case _ => None
  }

  /** Ordinary text before the rest of a format is copied verbatim and consumes no argument. */
  lemma {:induction false} FormatText(t: string, rest: string, args: seq<Arg>)
    requires NoPercent(t)
    ensures Format(t + rest, args) == Prepend(t, Format(rest, args))
    decreases |t|
  {
    var fmt := t + rest;
    if t == [] {
      assert fmt == rest;
      assert Format(rest, args).Some? ==> t + Format(rest, args).value == Format(rest, args).value;
    } else {
      assert fmt[0] == t[0] && t[0] != '%';
      assert fmt[1..] == t[1..] + rest;
      assert Format(fmt, args) == Prepend([t[0]], Format(t[1..] + rest, args));
      FormatText(t[1..], rest, args);
      assert Format(rest, args).Some? ==>
        [t[0]] + (t[1..] + Format(rest, args).value) == t + Format(rest, args).value;
    }
  }

  /** A format without conversions prints itself. */
  lemma {:induction false} FormatPlain(t: string, args: seq<Arg>)
    requires NoPercent(t)
    ensures Format(t, args) == Some(t)
    decreases |t|
  {
    if t != [] {
      assert t[0] != '%';
      FormatPlain(t[1..], args);
      assert [t[0]] + t[1..] == t;
    }
  }

  /** `%s` prints the next argument, which must be a string. */
  lemma FormatStr(x: string, rest: string, args: seq<Arg>)
    ensures Format("%s" + rest, [Str(x)] + args) == Prepend(x, Format(rest, args))
    ensures forall i :: Format("%s" + rest, [Int(i)] + args) == None
  {
    assert ("%s" + rest)[2..] == rest;
    assert ([Str(x)] + args)[1..] == args;
  }

  /** `%d` prints the next argument, which must be an integer, in decimal. */
  lemma FormatDec(i: int, rest: string, args: seq<Arg>)
    ensures Format("%d" + rest, [Int(i)] + args) == Prepend(FormatInt(i), Format(rest, args))
    ensures forall x :: Format("%d" + rest, [Str(x)] + args) == None
  {
    assert ("%d" + rest)[2..] == rest;
    assert ([Int(i)] + args)[1..] == args;
  }
}
