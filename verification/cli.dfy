/**
 Start-up of the prober: the argument vector (program name first) and the
 answer of the system resolver decide whether the process prints its usage
 and exits 0, prints a diagnostic and exits 1, panics, or goes on probing
 with a configuration (target, port, timeout).

 The order is the program's: the argument count is checked first, then the
 host is resolved, then the port is parsed, then the timeout flag is looked
 for. `process::exit` and Rust's panics become `Outcome` values.
 */
module Cli {
  import opened Optional
  import opened Numerals

  /** Seconds used when no timeout flag is given. */
  const DEFAULT_TIMEOUT: nat := 2

  /** Exit status of a Rust program whose main thread panics. */
  const PANIC_EXIT_CODE: int := 101

  /** What the system resolver answered for the host argument: an error,
      or the addresses it found, in order. */
  datatype Lookup = LookupFailed | Addresses(ips: seq<string>)

  /** What the prober runs with: the resolved address, the port, and the
      timeout in seconds. */
  datatype Config = Config(target: string, port: nat, timeout: nat)

  /** The fatal start-up errors; each prints a line on standard error and
      exits with status 1. */
  datatype StartupError =
    | ResolveFailed
    | PortInvalid(kind: IntErrorKind)
    | TimeoutInvalid

  datatype Outcome =
    | Usage(program: string)                // usage text on stdout, exit 0
    | Abort(error: StartupError)            // diagnostic on stderr, exit 1
    | Panic(len: nat, index: nat)           // vector indexed out of bounds
    | Probe(config: Config)                 // the probe loop, never exits

  /** What the timeout flag handling leaves behind: the seconds to use, a
      value that does not parse, or an index past the end of the vector. */
  datatype Setting = Seconds(value: nat) | BadValue | OutOfBounds(len: nat, index: nat)

  predicate IsTimeoutFlag(arg: string) {
    arg == "-t" || arg == "--timeout"
  }

  /** The address the prober uses: the first one found, the empty string
      when the lookup found none, nothing when it failed. */
  function ResolvedTarget(lookup: Lookup): (t: Option<string>)
    ensures t.None? <==> lookup.LookupFailed?
    ensures t.Some? && |lookup.ips| > 0 ==> t.value == lookup.ips[0]
    ensures t.Some? && |lookup.ips| == 0 ==> t.value == ""
  {
    match lookup
    case LookupFailed => None
    case Addresses(ips) => if |ips| > 0 then Some(ips[0]) else Some("")
  }

  /** Index of the first argument, program name included, that spells the
      timeout flag either way. */
  function FlagPosition(args: seq<string>): (r: Option<nat>)
    ensures r.Some? ==> r.value < |args| && IsTimeoutFlag(args[r.value])
    ensures r.Some? ==> forall j :: 0 <= j < r.value ==> !IsTimeoutFlag(args[j])
    ensures r.None? ==> forall j :: 0 <= j < |args| ==> !IsTimeoutFlag(args[j])
  {
    if args == [] then None
    else if IsTimeoutFlag(args[0]) then Some(0)
    else
      match FlagPosition(args[1..])
      case None => None
      case Some(i) => Some(i + 1)
  }

  /** The timeout as the argument macro leaves it: the default when no flag
      occurs, otherwise the `u64` parse of the argument right after the
      first flag, which need not exist. */
  function TimeoutSetting(args: seq<string>): (r: Setting)
    ensures r.Seconds? ==> r.value <= U64_MAX
    ensures (forall j :: 0 <= j < |args| ==> !IsTimeoutFlag(args[j])) ==> r == Seconds(DEFAULT_TIMEOUT)
    ensures r.OutOfBounds? <==>
              && |args| > 0 && IsTimeoutFlag(args[|args| - 1])
              && forall j :: 0 <= j < |args| - 1 ==> !IsTimeoutFlag(args[j])
    ensures r.OutOfBounds? ==> r == OutOfBounds(|args|, |args|)
  {
    match FlagPosition(args)
    case None => Seconds(DEFAULT_TIMEOUT)
    case Some(i) =>
      if i + 1 >= |args| then OutOfBounds(|args|, i + 1)
      else
        match ParseUnsigned(args[i + 1], U64_MAX)
        case Parsed(v) => Seconds(v)
        case Rejected(_) => BadValue
  }

  /** The start-up sequence once the timeout setting is known. */
  function Startup(args: seq<string>, resolve: string -> Lookup, timeout: Setting): Outcome {
    if |args| < 3 then
      if |args| == 0 then Panic(0, 0) else Usage(args[0])
    else
      match ResolvedTarget(resolve(args[1]))
      case None => Abort(ResolveFailed)
      case Some(target) =>
        match ParseUnsigned(args[2], U16_MAX)
        case Rejected(kind) => Abort(PortInvalid(kind))
        case Parsed(port) =>
          match timeout
          case Seconds(t) => Probe(Config(target, port, t))
          case BadValue => Abort(TimeoutInvalid)
          case OutOfBounds(len, index) => Panic(len, index)
  }

  /** The program's start-up, as written. `resolve` stands for the system
      resolver and is consulted for the host argument only. */
  function Interpret(args: seq<string>, resolve: string -> Lookup): (o: Outcome)
    ensures |args| < 3 ==> o == (if |args| == 0 then Panic(0, 0) else Usage(args[0]))
    ensures |args| >= 3 && resolve(args[1]).LookupFailed? ==> o == Abort(ResolveFailed)
    ensures o.Probe? ==> o.config.port <= U16_MAX && o.config.timeout <= U64_MAX
    ensures o.Probe? ==> Some(o.config.target) == ResolvedTarget(resolve(args[1]))
  {
    Startup(args, resolve, TimeoutSetting(args))
  }

  /** Exit status of an outcome; the probe loop has none. */
  function ExitCode(o: Outcome): Option<int> {
    match o
    case Usage(_) => Some(0)
    case Abort(_) => Some(1)
    case Panic(_, _) => Some(PANIC_EXIT_CODE)
    case Probe(_) => None
  }

  /** The line a fatal start-up error writes to standard error. */
  function Diagnostic(e: StartupError): string {
    match e
    case ResolveFailed => "Hostname resolve failed\n"
    case PortInvalid(kind) => "Failed to parse port: " + KindText(kind) + "\n"
    case TimeoutInvalid => "-t <timeout in seconds>\n"
  }

  /** The usage text, printed with a trailing line break. */
  function UsageText(program: string): string {
    "Usage: " + program + " <IP address / hostname> <Port>\n\n"
    + "            \r[-t, --timeout] in seconds\n\n"
    + "            \rDefault timeout is 2 seconds\n\n"
  }

  // ---------------------------------------------------------------------
  // Properties of the start-up

  /** The usage exit (status 0) happens exactly when a program name is
      present but the host or the port is missing. */
  lemma UsageIffTooFewArguments(args: seq<string>, resolve: string -> Lookup)
    ensures ExitCode(Interpret(args, resolve)) == Some(0) <==> 1 <= |args| < 3
    ensures 1 <= |args| < 3 ==> Interpret(args, resolve) == Usage(args[0])
  {
  }

  /** With a resolvable host, the port is accepted exactly when the third
      argument is an optional `+` and decimal digits worth at most 65535;
      otherwise the process exits with status 1. */
  lemma PortAcceptedIff(args: seq<string>, resolve: string -> Lookup)
    requires |args| >= 3 && !resolve(args[1]).LookupFailed?
    ensures Interpret(args, resolve).Abort? && Interpret(args, resolve).error.PortInvalid?
            <==> !(WellFormed(args[2]) && Magnitude(DigitsOf(args[2])) <= U16_MAX)
    ensures Interpret(args, resolve).Probe? ==>
              Interpret(args, resolve).config.port == Magnitude(DigitsOf(args[2]))
    ensures !(WellFormed(args[2]) && Magnitude(DigitsOf(args[2])) <= U16_MAX) ==>
              ExitCode(Interpret(args, resolve)) == Some(1)
  {
    ParseUnsignedMeaning(args[2], U16_MAX);
  }

  /** Without either spelling of the flag anywhere in the vector, a
      well-formed invocation probes with the default timeout of 2 seconds. */
  lemma {:induction false} DefaultTimeout(args: seq<string>, resolve: string -> Lookup)
    requires |args| >= 3 && !resolve(args[1]).LookupFailed?
    requires ParseUnsigned(args[2], U16_MAX).Parsed?
    requires forall j :: 0 <= j < |args| ==> !IsTimeoutFlag(args[j])
    ensures Interpret(args, resolve).Probe?
    ensures Interpret(args, resolve).config.timeout == DEFAULT_TIMEOUT
  {
  }

  /** When the first flag, at any index, is followed by a value, the
      timeout is the `u64` parse of that value: accepted (zero included)
      exactly when it is well-formed and at most 2^64 - 1, an exit with
      status 1 otherwise. */
  lemma FlagValueDecides(args: seq<string>, resolve: string -> Lookup, i: nat)
    requires |args| >= 3 && !resolve(args[1]).LookupFailed?
    requires ParseUnsigned(args[2], U16_MAX).Parsed?
    requires i + 1 < |args| && IsTimeoutFlag(args[i])
    requires forall j :: 0 <= j < i ==> !IsTimeoutFlag(args[j])
    ensures Interpret(args, resolve).Probe?
            <==> WellFormed(args[i + 1]) && Magnitude(DigitsOf(args[i + 1])) <= U64_MAX
    ensures Interpret(args, resolve).Probe? ==>
              Interpret(args, resolve).config.timeout == Magnitude(DigitsOf(args[i + 1]))
    ensures !Interpret(args, resolve).Probe? ==> Interpret(args, resolve) == Abort(TimeoutInvalid)
  {
    assert FlagPosition(args) == Some(i);
    ParseUnsignedMeaning(args[i + 1], U64_MAX);
  }

  /** As written, a first flag that is the last argument makes the macro
      index one past the end of the vector: the process panics. */
  lemma FlagLastPanics(args: seq<string>, resolve: string -> Lookup)
    requires |args| >= 3 && !resolve(args[1]).LookupFailed?
    requires ParseUnsigned(args[2], U16_MAX).Parsed?
    requires IsTimeoutFlag(args[|args| - 1])
    requires forall j :: 0 <= j < |args| - 1 ==> !IsTimeoutFlag(args[j])
    ensures Interpret(args, resolve) == Panic(|args|, |args|)
    ensures ExitCode(Interpret(args, resolve)) == Some(PANIC_EXIT_CODE)
  {
    assert FlagPosition(args) == Some(|args| - 1);
  }

  /** Arguments without the flag inserted anywhere after the port change
      nothing, provided the vector does not end in its first flag and the
      insertion does not come between that flag and its value. */
  lemma ExtraArgumentsIgnored(args: seq<string>, k: nat, extra: seq<string>, resolve: string -> Lookup)
    requires 3 <= k <= |args|
    requires forall j :: 0 <= j < |extra| ==> !IsTimeoutFlag(extra[j])
    requires FlagPosition(args).None? || FlagPosition(args).value + 1 < |args|
    requires FlagPosition(args).None? || k != FlagPosition(args).value + 1
    ensures Interpret(args[..k] + extra + args[k..], resolve) == Interpret(args, resolve)
  {
    var all := args[..k] + extra + args[k..];
    assert all[..3] == args[..3];
    TimeoutSettingInsert(args, k, extra);
    StartupReadsThreeArguments(all, args, resolve, TimeoutSetting(args));
  }

  /** The timeout setting survives the insertion of flag-free arguments that
      does not separate the first flag from its value. */
  lemma TimeoutSettingInsert(args: seq<string>, k: nat, extra: seq<string>)
    requires k <= |args|
    requires forall j :: 0 <= j < |extra| ==> !IsTimeoutFlag(extra[j])
    requires FlagPosition(args).None? || FlagPosition(args).value + 1 < |args|
    requires FlagPosition(args).None? || k != FlagPosition(args).value + 1
    ensures TimeoutSetting(args[..k] + extra + args[k..]) == TimeoutSetting(args)
  {
    var all := args[..k] + extra + args[k..];
    FlagPositionInsert(args, k, extra);
    if FlagPosition(args).Some? {
      var i := FlagPosition(args).value;
      InsertIndex(args, k, extra, i + 1);
      var j := if i < k then i else i + |extra|;
      assert FlagPosition(all) == Some(j);
      SettingFromValue(all, j);
      SettingFromValue(args, i);
    }
  }

  /** The setting a first flag followed by a value gives depends on that
      value alone. */
  lemma SettingFromValue(args: seq<string>, i: nat)
    requires FlagPosition(args) == Some(i) && i + 1 < |args|
    ensures TimeoutSetting(args) == (if ParseUnsigned(args[i + 1], U64_MAX).Parsed?
                                     then Seconds(ParseUnsigned(args[i + 1], U64_MAX).value)
                                     else BadValue)
  {
  }

  /** Past the timeout setting, start-up reads only the first three arguments. */
  lemma StartupReadsThreeArguments(a: seq<string>, b: seq<string>, resolve: string -> Lookup, timeout: Setting)
    requires |a| >= 3 && |b| >= 3 && a[..3] == b[..3]
    ensures Startup(a, resolve, timeout) == Startup(b, resolve, timeout)
  {
    assert a[1] == a[..3][1] && a[2] == a[..3][2];
    assert b[1] == b[..3][1] && b[2] == b[..3][2];
  }

  /** Where an argument lands once `extra` is inserted at index `k`. */
  lemma InsertIndex(args: seq<string>, k: nat, extra: seq<string>, j: nat)
    requires k <= |args| && j < |args|
    ensures |args[..k] + extra + args[k..]| == |args| + |extra|
    ensures (args[..k] + extra + args[k..])[if j < k then j else j + |extra|] == args[j]
  {
    if j >= k {
      var front := args[..k] + extra;
      assert args[..k] + extra + args[k..] == front + args[k..];
      assert (front + args[k..])[|front| + (j - k)] == args[k..][j - k];
    }
  }

  /** Inserting arguments without the flag at index `k` leaves a first flag
      before `k` where it was and moves one at or after `k` by `|extra|`. */
  lemma {:induction false} FlagPositionInsert(args: seq<string>, k: nat, extra: seq<string>)
    requires k <= |args|
    requires forall j :: 0 <= j < |extra| ==> !IsTimeoutFlag(extra[j])
    ensures FlagPosition(args).None? ==> FlagPosition(args[..k] + extra + args[k..]).None?
    ensures FlagPosition(args).Some? && FlagPosition(args).value < k ==>
              FlagPosition(args[..k] + extra + args[k..]) == FlagPosition(args)
    ensures FlagPosition(args).Some? && FlagPosition(args).value >= k ==>
              FlagPosition(args[..k] + extra + args[k..]) == Some(FlagPosition(args).value + |extra|)
    decreases |args|
  {
    var all := args[..k] + extra + args[k..];
    if k == 0 {
      assert all == extra + args;
      FlagPositionPrepend(extra, args);
    } else {
      assert all[0] == args[0];
      assert all[1..] == args[1..][..k - 1] + extra + args[1..][k - 1..];
      FlagPositionInsert(args[1..], k - 1, extra);
    }
  }

  /** Arguments without the flag put in front move the first flag by their
      number. */
  lemma {:induction false} FlagPositionPrepend(extra: seq<string>, args: seq<string>)
    requires forall j :: 0 <= j < |extra| ==> !IsTimeoutFlag(extra[j])
    ensures FlagPosition(args).None? ==> FlagPosition(extra + args).None?
    ensures FlagPosition(args).Some? ==> FlagPosition(extra + args) == Some(FlagPosition(args).value + |extra|)
    decreases |extra|
  {
    if extra != [] {
      assert (extra + args)[0] == extra[0];
      assert (extra + args)[1..] == extra[1..] + args;
      FlagPositionPrepend(extra[1..], args);
    } else {
      assert extra + args == args;
    }
  }

  /** A resolver that answers every name with the one address 10.0.0.1,
      standing in for the system resolver in the examples below. */
  function Fixed(host: string): Lookup {
    Addresses(["10.0.0.1"])
  }

  lemma LargestPort()
    ensures Interpret(["tcping", "10.0.0.1", "65535"], Fixed) == Probe(Config("10.0.0.1", 65535, 2))
  {
  }

  lemma PortPastRange()
    ensures Interpret(["tcping", "10.0.0.1", "65536"], Fixed) == Abort(PortInvalid(PosOverflow))
  {
  }

  lemma PlusSignedPort()
    ensures Interpret(["tcping", "10.0.0.1", "+80"], Fixed) == Probe(Config("10.0.0.1", 80, 2))
  {
  }

  lemma ZeroTimeout()
    ensures Interpret(["tcping", "10.0.0.1", "80", "-t", "0"], Fixed) == Probe(Config("10.0.0.1", 80, 0))
  {
  }

  lemma FirstFlagWins()
    ensures Interpret(["tcping", "10.0.0.1", "80", "--timeout", "7", "-t", "9"], Fixed) == Probe(Config("10.0.0.1", 80, 7))
  {
  }

  lemma FlagAsHost()
    ensures Interpret(["tcping", "-t", "80"], Fixed) == Probe(Config("10.0.0.1", 80, 80))
  {
  }

  lemma LaterTrailingFlag()
    ensures Interpret(["tcping", "10.0.0.1", "80", "-t", "5", "-t"], Fixed) == Probe(Config("10.0.0.1", 80, 5))
  {
  }

  lemma UnknownOptionSkipped()
    ensures Interpret(["tcping", "10.0.0.1", "80", "-v", "-t", "5"], Fixed) == Probe(Config("10.0.0.1", 80, 5))
  {
  }

  lemma TrailingFlag()
    ensures Interpret(["tcping", "10.0.0.1", "80", "-t"], Fixed) == Panic(4, 4)
  {
  }

  // ---------------------------------------------------------------------
  // The start-up with the flag value bounds-checked

  /** The timeout setting with a missing flag value reported like an
      unparsable one, which is what the macro's diagnostic describes. */
  function CheckedTimeoutSetting(args: seq<string>): (r: Setting)
    ensures !r.OutOfBounds?
    ensures TimeoutSetting(args).OutOfBounds? ==> r == BadValue
    ensures !TimeoutSetting(args).OutOfBounds? ==> r == TimeoutSetting(args)
  {
    match TimeoutSetting(args)
    case OutOfBounds(_, _) => BadValue
    case other => other
  }

  /** The start-up with the flag value bounds-checked. */
  function InterpretChecked(args: seq<string>, resolve: string -> Lookup): (o: Outcome)
    ensures |args| > 0 ==> !o.Panic?
    ensures o.Probe? ==> o.config.port <= U16_MAX && o.config.timeout <= U64_MAX
  {
    Startup(args, resolve, CheckedTimeoutSetting(args))
  }

  /** The bounds-checked start-up never panics on a non-empty vector, ends
      a vector whose first flag is last with the usage hint and status 1,
      and otherwise behaves exactly like the program as written. */
  lemma CheckedStartup(args: seq<string>, resolve: string -> Lookup)
    ensures |args| > 0 ==> !InterpretChecked(args, resolve).Panic?
    ensures Interpret(args, resolve).Panic? && |args| > 0 ==>
              InterpretChecked(args, resolve) == Abort(TimeoutInvalid)
    ensures !Interpret(args, resolve).Panic? ==>
              InterpretChecked(args, resolve) == Interpret(args, resolve)
  {
  }
}
