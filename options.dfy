/**
  Command-line options (`parse_args` and the checks at the start of `main`
  in src/main.rs).

  `parse_args` scans the arguments left to right from index 1 (index 0 is
  the program name). A flag may be repeated; the last value given wins.
  The scan gives up on `--help`, on an unknown argument, and on an option
  whose value is missing or is not a number of the option's type. `main`
  then demands exactly one of the runtime and the number of writes and
  turns a runtime into a number of writes.
 */
module Options {
  import opened Wrappers
  import opened Units

  datatype Options = Options(
    debugMode: bool,
    runtime: nat,          // seconds, 0 when not given
    numWrites: nat,        // 0 when not given
    bufferSize: nat,       // records produced per disk period
    diskDelay: nat,        // milliseconds
    msgsPerInterval: nat)  // messages per network send

  const Defaults: Options := Options(false, 0, 0, 4096, 20, 1)

  /* ---------------- numbers ---------------- */

  predicate IsDigit(c: char) {
    '0' <= c <= '9'
  }

  predicate AllDigits(s: string) {
    forall k :: 0 <= k < |s| ==> IsDigit(s[k])
  }

  /** The value of a string of decimal digits, most significant first. */
  function DigitsValue(s: string): nat
    requires AllDigits(s)
  {
    if s == [] then 0
    else DigitsValue(s[..|s| - 1]) * 10 + (s[|s| - 1] as int - '0' as int)
  }

  /**
    `str::parse` for an unsigned integer type whose values lie below
    `limit`: an optional `+`, then at least one decimal digit; a value at
    or above the limit is an overflow error.
   */
  function ParseNumber(s: string, limit: nat): (r: Option<nat>)
    ensures r.Some? ==> r.value < limit
    ensures s == [] || s == "+" ==> r == None
  {
    if s == [] then None
    else
      var digits := if s[0] == '+' then s[1..] else s;
      if digits == [] || !AllDigits(digits) then None
      else if DigitsValue(digits) < limit then Some(DigitsValue(digits))
      else None
  }

  /** A character other than a digit, except a leading `+`, makes the text unparsable. */
  lemma NonDigitRejected(s: string, limit: nat, k: nat)
    requires k < |s| && !IsDigit(s[k]) && (k > 0 || s[k] != '+')
    ensures ParseNumber(s, limit) == None
  {
    if s[0] == '+' {
      assert !IsDigit(s[1..][k - 1]);
    } else {
      assert !IsDigit(s[k]);
    }
  }

  /** The shortest decimal spelling of `n`. */
  function Decimal(n: nat): (s: string)
    ensures s != [] && AllDigits(s)
  {
    if n < 10 then [('0' as int + n) as char]
    else Decimal(n / 10) + [('0' as int + n % 10) as char]
  }

  lemma {:induction false} DecimalValue(n: nat)
    ensures DigitsValue(Decimal(n)) == n
  {
    if n >= 10 {
      DecimalValue(n / 10);
      var s := Decimal(n);
      assert s[..|s| - 1] == Decimal(n / 10);
    }
  }

  /** Every number of the type reads back from its decimal spelling. */
  lemma DecimalRoundTrip(n: nat, limit: nat)
    requires n < limit
    ensures ParseNumber(Decimal(n), limit) == Some(n)
  {
    DecimalValue(n);
  }

  /* ---------------- the argument scanner ---------------- */

  datatype Flag = Help | Debug | Runtime | NumWrites | BufferSize | DiskDelay | MsgsPerInterval | Unknown

  /** The long and short spellings of each option. */
  function Classify(arg: string): Flag {
    if arg == "--help" || arg == "-h" then Help
    else if arg == "--debug" || arg == "-d" then Debug
    else if arg == "--runtime" || arg == "-r" then Runtime
    else if arg == "--num_writes" || arg == "-n" then NumWrites
    else if arg == "--buffer_size" || arg == "-bs" then BufferSize
    else if arg == "--disk_delay" || arg == "-dd" then DiskDelay
    else if arg == "--msgs_per_interval" || arg == "-mpi" then MsgsPerInterval
    else Unknown
  }

  predicate TakesValue(f: Flag) {
    f.Runtime? || f.NumWrites? || f.BufferSize? || f.DiskDelay? || f.MsgsPerInterval?
  }

  /** Values are `u128`, except the messages per interval, a `usize`. */
  function Limit(f: Flag): nat {
    if f.MsgsPerInterval? then USIZE_LIMIT else U128_LIMIT
  }

  function SetValue(o: Options, f: Flag, n: nat): Options
    requires TakesValue(f)
  {
    match f
    case Runtime => o.(runtime := n)
    case NumWrites => o.(numWrites := n)
    case BufferSize => o.(bufferSize := n)
    case DiskDelay => o.(diskDelay := n)
    case MsgsPerInterval => o.(msgsPerInterval := n)
  }

  /** The scan from argument `i` on, with the options read so far in `acc`. */
  function ParseFrom(args: seq<string>, i: nat, acc: Options): Option<Options>
    decreases |args| - i
  {
    if i >= |args| then Some(acc)
    else
      var f := Classify(args[i]);
      if f.Help? || f.Unknown? then None
      else if f.Debug? then ParseFrom(args, i + 1, acc.(debugMode := true))
      else if i + 1 < |args| then
        match ParseNumber(args[i + 1], Limit(f))
        case None => None
        case Some(n) => ParseFrom(args, i + 2, SetValue(acc, f, n))
      else None
  }

  /** What `parse_args` returns for the whole command line. */
  function Parsed(args: seq<string>): Option<Options> {
    ParseFrom(args, 1, Defaults)
  }

  /** One step of the scan over an option that takes a value. */
  lemma ScanValue(args: seq<string>, i: nat, acc: Options)
    requires i + 1 < |args| && TakesValue(Classify(args[i]))
    requires ParseNumber(args[i + 1], Limit(Classify(args[i]))).Some?
    ensures ParseFrom(args, i, acc) ==
      ParseFrom(args, i + 2, SetValue(acc, Classify(args[i]), ParseNumber(args[i + 1], Limit(Classify(args[i]))).value))
  {
  }

  /** One step of the scan over `--debug`. */
  lemma ScanDebug(args: seq<string>, i: nat, acc: Options)
    requires i < |args| && Classify(args[i]).Debug?
    ensures ParseFrom(args, i, acc) == ParseFrom(args, i + 1, acc.(debugMode := true))
  {
  }

  /** The steps of the scan that give up. */
  lemma ScanFails(args: seq<string>, i: nat, acc: Options)
    requires i < |args|
    requires
      || Classify(args[i]).Help? || Classify(args[i]).Unknown?
      || (TakesValue(Classify(args[i])) && i + 1 >= |args|)
      || (TakesValue(Classify(args[i])) && i + 1 < |args| && ParseNumber(args[i + 1], Limit(Classify(args[i]))).None?)
    ensures ParseFrom(args, i, acc) == None
  {
  }

  /**
    `parse_args`: the left-to-right scan over an index. The six mutable
    locals of the source are the six fields of `opts`; its five branches
    for options that take a value differ only in the field they set and
    the integer type they parse, and are written here as one branch.
   */
  method ParseArgs(args: seq<string>) returns (r: Option<Options>)
    ensures r == Parsed(args)
  {
    var opts := Defaults;
    var i := 1;
    var len := |args|;
    while i < len
      invariant 1 <= i
      invariant Parsed(args) == ParseFrom(args, i, opts)
      decreases len - i
    {
      var flag := Classify(args[i]);
      if flag.Help? || flag.Unknown? {
        ScanFails(args, i, opts);
        return None;
      } else if flag.Debug? {
        ScanDebug(args, i, opts);
        opts := opts.(debugMode := true);
      } else {
        if i + 1 >= len {
          ScanFails(args, i, opts);
          return None;
        }
        var value := ParseNumber(args[i + 1], Limit(flag));
        if value.None? {
          ScanFails(args, i, opts);
          return None;
        }
        ScanValue(args, i, opts);
        opts := SetValue(opts, flag, value.value);
        i := i + 1;
      }
      i := i + 1;
    }
    return Some(opts);
  }

  /* ---------------- properties of the scan ---------------- */

  /**
    A scan that succeeds has consumed the arguments exactly, so the
    arguments that follow are scanned from the options it produced.
   */
  lemma {:induction false} ParseFromExtend(args: seq<string>, i: nat, acc: Options, o: Options, tail: seq<string>)
    requires i <= |args| && ParseFrom(args, i, acc) == Some(o)
    ensures ParseFrom(args + tail, i, acc) == ParseFrom(args + tail, |args|, o)
    decreases |args| - i
  {
    if i < |args| {
      var f := Classify(args[i]);
      assert (args + tail)[i] == args[i];
      if f.Debug? {
        ParseFromExtend(args, i + 1, acc.(debugMode := true), o, tail);
      } else {
        assert (args + tail)[i + 1] == args[i + 1];
        var n := ParseNumber(args[i + 1], Limit(f)).value;
        ParseFromExtend(args, i + 2, SetValue(acc, f, n), o, tail);
      }
    }
  }

  /** Without options, `parse_args` returns the defaults. */
  lemma NoOptionsGiveDefaults(args: seq<string>)
    requires |args| <= 1
    ensures Parsed(args) == Some(Defaults)
    ensures Defaults == Options(false, 0, 0, 4096, 20, 1)
  {
  }

  /**
    What one more option does to a command line that parses: `--help`, an
    unknown argument and an option without a value or with an unparsable
    value make the whole scan fail; `--debug` sets the flag; a valid value
    replaces the earlier one, so the last occurrence of an option wins.
   */
  lemma AppendOption(args: seq<string>, o: Options, arg: string, value: string)
    requires |args| >= 1 && Parsed(args) == Some(o)
    ensures Classify(arg).Help? || Classify(arg).Unknown? ==> Parsed(args + [arg]) == None
    ensures Classify(arg).Debug? ==> Parsed(args + [arg]) == Some(o.(debugMode := true))
    ensures TakesValue(Classify(arg)) ==> Parsed(args + [arg]) == None
    ensures TakesValue(Classify(arg)) ==>
      Parsed(args + [arg, value]) ==
        match ParseNumber(value, Limit(Classify(arg)))
        case None => None
        case Some(n) => Some(SetValue(o, Classify(arg), n))
  {
    ParseFromExtend(args, 1, Defaults, o, [arg]);
    ParseFromExtend(args, 1, Defaults, o, [arg, value]);
    assert (args + [arg, value])[|args|] == arg;
    assert (args + [arg, value])[|args| + 1] == value;
  }

  /** Every value a successful scan returns fits the option's Rust type. */
  lemma {:induction false} ParsedValuesInRange(args: seq<string>, i: nat, acc: Options)
    requires acc.runtime < U128_LIMIT && acc.numWrites < U128_LIMIT && acc.bufferSize < U128_LIMIT
    requires acc.diskDelay < U128_LIMIT && acc.msgsPerInterval < USIZE_LIMIT
    ensures match ParseFrom(args, i, acc)
      case None => true
      case Some(o) =>
        && o.runtime < U128_LIMIT && o.numWrites < U128_LIMIT && o.bufferSize < U128_LIMIT
        && o.diskDelay < U128_LIMIT && o.msgsPerInterval < USIZE_LIMIT
    decreases |args| - i
  {
    if i < |args| {
      var f := Classify(args[i]);
      if f.Debug? {
        ParsedValuesInRange(args, i + 1, acc.(debugMode := true));
      } else if TakesValue(f) && i + 1 < |args| && ParseNumber(args[i + 1], Limit(f)).Some? {
        var n := ParseNumber(args[i + 1], Limit(f)).value;
        ParsedValuesInRange(args, i + 2, SetValue(acc, f, n));
      }
    }
  }

  /* ---------------- the checks in main ---------------- */

  /** The configuration the pipeline starts with. */
  datatype Config = Config(
    debugMode: bool,
    numWrites: nat,        // producer rounds of `bufferSize` records each
    bufferSize: nat,
    diskDelay: nat,
    msgsPerInterval: nat)

  /** How the program continues after reading its options. */
  datatype Launch =
    | Start(config: Config)    // the pipeline runs
    | Refused                  // usage is printed and the program exits
    | Panic(reason: string)    // the program aborts

  /**
    Lines 161-173 as written: exactly one of the runtime and the number of
    writes must be given; a runtime in seconds becomes a number of disk
    periods, runtime * 1000 / disk_delay. The `u128` product overflows and
    the quotient divides by zero for some accepted inputs, and a zero
    `msgs_per_interval` is let through.
   */
  function CheckOptionsAsWritten(o: Options): (l: Launch)
    ensures l.Refused? <==> (o.runtime == 0) == (o.numWrites == 0)
    ensures l.Panic? <==>
      o.runtime != 0 && o.numWrites == 0 && (o.runtime * ONE_THOUSAND >= U128_LIMIT || o.diskDelay == 0)
    ensures l.Start? ==>
      && l.config.numWrites == (if o.runtime != 0 then o.runtime * ONE_THOUSAND / o.diskDelay else o.numWrites)
      && l.config == Config(o.debugMode, l.config.numWrites, o.bufferSize, o.diskDelay, o.msgsPerInterval)
  {
    if o.runtime == 0 && o.numWrites == 0 then Refused
    else if o.runtime != 0 && o.numWrites != 0 then Refused
    else if o.runtime != 0 then
      if o.runtime * ONE_THOUSAND >= U128_LIMIT then Panic("attempt to multiply with overflow")
      else if o.diskDelay == 0 then Panic("attempt to divide by zero")
      else Start(Config(o.debugMode, o.runtime * ONE_THOUSAND / o.diskDelay, o.bufferSize, o.diskDelay, o.msgsPerInterval))
    else Start(Config(o.debugMode, o.numWrites, o.bufferSize, o.diskDelay, o.msgsPerInterval))
  }

  /**
    The checks as evidently intended: the same rules, and the inputs that
    would crash the program (a runtime too large for the product, a zero
    disk delay with a runtime, zero messages per interval) are refused
    with the usage message instead. Whatever starts gives the network
    stage a positive number of messages per send.
   */
  function CheckOptions(o: Options): (l: Launch)
    ensures !l.Panic?
    ensures l.Start? <==>
      && (o.runtime == 0) != (o.numWrites == 0)
      && o.msgsPerInterval > 0
      && (o.runtime != 0 ==> o.diskDelay > 0 && o.runtime * ONE_THOUSAND < U128_LIMIT)
    ensures l.Start? ==> l.config.msgsPerInterval > 0
  {
    if o.runtime == 0 && o.numWrites == 0 then Refused
    else if o.runtime != 0 && o.numWrites != 0 then Refused
    else if o.msgsPerInterval == 0 then Refused
    else if o.runtime != 0 then
      if o.runtime * ONE_THOUSAND >= U128_LIMIT || o.diskDelay == 0 then Refused
      else Start(Config(o.debugMode, o.runtime * ONE_THOUSAND / o.diskDelay, o.bufferSize, o.diskDelay, o.msgsPerInterval))
    else Start(Config(o.debugMode, o.numWrites, o.bufferSize, o.diskDelay, o.msgsPerInterval))
  }

  /** The corrected checks change nothing where the written ones neither crash nor start a zero rate. */
  lemma CheckOptionsAgrees(o: Options)
    requires !CheckOptionsAsWritten(o).Panic?
    requires CheckOptionsAsWritten(o).Start? ==> o.msgsPerInterval > 0
    ensures CheckOptions(o) == CheckOptionsAsWritten(o)
  {
  }

  /** `-r 1 -dd 0` passes `parse_args` and the option checks, then divides by zero (line 172). */
  lemma DivideByZeroAccepted()
    ensures Parsed(["treplica", "-r", "1", "-dd", "0"]) == Some(Defaults.(runtime := 1, diskDelay := 0))
    ensures CheckOptionsAsWritten(Defaults.(runtime := 1, diskDelay := 0)) == Panic("attempt to divide by zero")
    ensures CheckOptions(Defaults.(runtime := 1, diskDelay := 0)) == Refused
  {
    DecimalRoundTrip(1, U128_LIMIT);
    DecimalRoundTrip(0, U128_LIMIT);
  }

  /**
    `-n 1 -mpi 0` passes every check and starts the pipeline with zero
    messages per interval; the network stage then computes
    `msgs_per_interval - 1` on a `usize` (line 405), which underflows.
   */
  lemma ZeroRateAccepted()
    ensures Parsed(["treplica", "-n", "1", "-mpi", "0"]) == Some(Defaults.(numWrites := 1, msgsPerInterval := 0))
    ensures var l := CheckOptionsAsWritten(Defaults.(numWrites := 1, msgsPerInterval := 0));
      l.Start? && l.config.msgsPerInterval == 0
    ensures CheckOptions(Defaults.(numWrites := 1, msgsPerInterval := 0)) == Refused
  {
    DecimalRoundTrip(1, U128_LIMIT);
    DecimalRoundTrip(0, USIZE_LIMIT);
  }

  /**
    A runtime just above `u128::MAX / 1000` parses as a `u128`, then the
    product `runtime * 1000` on line 172 overflows.
   */
  lemma RuntimeOverflowAccepted()
    ensures var r := U128_LIMIT / ONE_THOUSAND + 1;
      && Parsed(["treplica", "-r", Decimal(r)]) == Some(Defaults.(runtime := r))
      && CheckOptionsAsWritten(Defaults.(runtime := r)) == Panic("attempt to multiply with overflow")
      && CheckOptions(Defaults.(runtime := r)) == Refused
  {
    var r := U128_LIMIT / ONE_THOUSAND + 1;
    var args := ["treplica", "-r", Decimal(r)];
    DecimalRoundTrip(r, U128_LIMIT);
    assert Classify(args[1]) == Runtime;
    ScanValue(args, 1, Defaults);
  }

  /** The whole start-up decision of `main`: scan the options, then check them. */
  function Startup(args: seq<string>): Launch
  {
    match Parsed(args)
    case None => Refused
    case Some(o) => CheckOptions(o)
  }
}
