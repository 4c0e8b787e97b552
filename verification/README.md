# tcp-ping, modelled in Dafny

`tcp-ping` is a command-line TCP port prober. It is given a host and a port,
and optionally `-t`/`--timeout` seconds. It resolves the host once and sets
the terminal title to `Probing <target> on port <port>`. Then, forever, it
tries one TCP connect with the timeout as deadline. It prints one coloured
status line per try and sleeps for the timeout.

This project models the pure logic of that program as Dafny functions and
proves properties about it:

- `optional.dfy`: module `Optional`, the `Option` datatype.
- `numerals.dfy`: module `Numerals`. It models Rust's `str::parse` into
  `u16` and `u64` as the program uses it, with the `ParseIntError` kinds.
  It also models `to_string` for unsigned integers.
- `cli.dfy`: module `Cli`, the start-up. The argument vector and the
  resolver's answer give one `Outcome`: the usage exit (status 0), a fatal
  error (status 1), a panic (status 101), or a `Config` of target, port and
  timeout. `process::exit` and the panics are result values here.
- `report.dfy`: module `Report`. It covers the latency tier and its colour,
  and the status lines as sequences of segments (text plus optional colour).
  It also covers the window title and the escape sequence that sets it.
- `session.dfy`: module `Session`. It models one pass of the probe loop and
  the passes for a finite run of connect attempts.

The order of start-up is the program's. The argument count is checked
first, then the host is resolved, then the port is parsed, then the timeout
flag is looked for. So a failed lookup is reported even when the port is
also bad.

Points where the code's behaviour is easy to misread:

- Usage is printed when the vector has fewer than three entries, program
  name included. An empty vector panics, because the usage text indexes
  the program name.
- The timeout flag is searched for in the whole vector. That includes the
  program name, the host and the port. The first `-t` or `--timeout` wins.
- When the first `-t`/`--timeout` is the last argument, the process
  panics: the flag's value is read one past the end of the vector. A later
  flag at the end is never looked at.
- A zero timeout is accepted. Nothing checks that it is positive.
- The timeout is parsed as `u64` (0 to 2^64 - 1). The port is parsed as
  `u16` (0 to 65535). Both accept one leading `+` and leading zeros.

## Model

| member | source | states |
|---|---|---|
| `Numerals.Scan` | src/main.rs:90 | the digit loop of the parse: an accepted value is at least the value read so far and at most the type's maximum, and the loop never reports `Empty` |
| `Numerals.ParseUnsigned` | src/main.rs:90 | an accepted value never exceeds the type's maximum; the `Empty` error happens exactly for the empty string |
| `Numerals.ParseUnsignedMeaning` | src/main.rs:90-96 | the parse accepts exactly an optional `+` followed by one or more ASCII digits whose value fits, and then returns that value |
| `Numerals.Decimal` | src/main.rs:118-120 | the printed form of a number is a non-empty digit string with no leading zero unless the number is 0 |
| `Numerals.DecimalRoundTrip` | src/main.rs:118 | parsing the printed form of a number that fits the type gives the number back |
| `Numerals.DecimalInjective` | src/main.rs:118-120 | different numbers print differently |
| `Cli.ResolvedTarget` | src/main.rs:31-45 | a failed lookup ends start-up; a successful one yields its first address, or the empty string when it found none |
| `Cli.FlagPosition` | src/main.rs:8 | the result is the least index whose argument is `-t` or `--timeout`, and there is none exactly when no argument is either |
| `Cli.TimeoutSetting` | src/main.rs:6-17 | with no flag anywhere the timeout is the default 2; the value is read out of bounds exactly when the first flag is the last argument, at an index equal to the length; an accepted timeout fits in `u64` |
| `Cli.Startup` | src/main.rs:79-99 | no contract of its own: the order count, lookup, port, timeout is stated through `Cli.Interpret` and the lemmas below it |
| `Cli.Interpret` | src/main.rs:78-99 | fewer than three arguments give usage (a panic when even the program name is missing); a failed lookup aborts; a probe configuration has a `u16` port, a `u64` timeout and the resolved target |
| `Cli.ExitCode` | src/main.rs:86 | no contract of its own: status 0, 1 or 101 per outcome and none for the probe loop; `Cli.UsageIffTooFewArguments`, `Cli.PortAcceptedIff` and `Cli.FlagLastPanics` state the statuses per input |
| `Cli.UsageIffTooFewArguments` | src/main.rs:79-87 | the exit with status 0 happens if and only if one or two arguments are given, and it names the program |
| `Cli.PortAcceptedIff` | src/main.rs:90-96 | the port error happens if and only if the third argument is not a well-formed number of at most 65535, and then the exit status is 1; an accepted port is that number |
| `Cli.DefaultTimeout` | src/main.rs:97-99 | with neither flag spelling anywhere, a valid invocation probes with timeout 2 |
| `Cli.FlagValueDecides` | src/main.rs:8-14 | after the first flag, the timeout is accepted (zero included) if and only if the next argument is a well-formed number of at most 2^64 - 1, and is then that number; otherwise the timeout error with status 1 |
| `Cli.FlagLastPanics` | src/main.rs:9 | a first flag that is the last argument indexes past the end of the vector: panic, exit status 101 |
| `Cli.ExtraArgumentsIgnored` | src/main.rs:8 | inserting flag-free arguments anywhere after the port changes nothing, provided the first flag is not last and the insertion does not separate it from its value |
| `Cli.LargestPort` | src/main.rs:90-91 | port `65535` is accepted, with the default timeout |
| `Cli.PortPastRange` | src/main.rs:92-94 | port `65536` is rejected as too large |
| `Cli.PlusSignedPort` | src/main.rs:90-91 | port `+80` is accepted as 80 |
| `Cli.ZeroTimeout` | src/main.rs:8-10 | `-t 0` is accepted as a zero timeout |
| `Cli.FirstFlagWins` | src/main.rs:8 | with `--timeout 7 -t 9` the timeout is 7 |
| `Cli.FlagAsHost` | src/main.rs:8-10 | a host argument spelled `-t` is taken as the flag, and the port doubles as its value (with a resolver that answers 10.0.0.1) |
| `Cli.LaterTrailingFlag` | src/main.rs:8-10 | with `-t 5 -t` the timeout is 5: only the first flag is read |
| `Cli.UnknownOptionSkipped` | src/main.rs:8 | with `-v -t 5` after the port the timeout is 5 |
| `Cli.TrailingFlag` | src/main.rs:9 | `tcping 10.0.0.1 80 -t` panics with index 4 into a vector of length 4 |
| `Cli.CheckedTimeoutSetting` | src/main.rs:9-14 | the bounds-checked setting never indexes past the end; a missing value is treated as an unparsable one, and otherwise the setting is unchanged |
| `Cli.InterpretChecked` | src/main.rs:78-99 | the bounds-checked start-up never panics on a non-empty vector, and a configuration it yields has a `u16` port and a `u64` timeout |
| `Cli.CheckedStartup` | src/main.rs:9-14 | the bounds-checked start-up never panics on a non-empty vector; it gives the timeout error where the program panics, and otherwise agrees with the program |
| `Report.Classify` | src/main.rs:108-112 | the fast tier is exactly 0 to 99 ms, the medium tier 100 to 149 ms, the slow tier 150 ms and up |
| `Report.TierColour` | src/main.rs:109-111 | no contract of its own: `Report.TierColourInjective` states that the three colours are distinct |
| `Report.LatencyColour` | src/main.rs:108-112 | green (6,156,86) exactly up to 99 ms, orange (255,152,14) exactly from 100 to 149 ms, red (211,33,44) exactly from 150 ms |
| `Report.TierBoundaries` | src/main.rs:108-112 | 0 and 99 ms are green (6,156,86); 100 and 149 ms are orange (255,152,14); 150 ms is red (211,33,44) |
| `Report.ClassifyMonotone` | src/main.rs:108-112 | a longer connect never falls in a faster tier |
| `Report.TierColourInjective` | src/main.rs:109-111 | the three tier colours are distinct |
| `Report.ConnectedLine` | src/main.rs:114-121 | the success line's text is `Connected to <target> on port <port> ms: <duration>` plus a line break; its coloured pieces are `Connected `, target, port and duration, all in the tier colour |
| `Report.FailedLine` | src/main.rs:124-130 | the failure line's text is `Failed to connect to <target> on port <port>` plus a line break; its coloured pieces are `Failed `, target and port, all in red |
| `Report.StatusLine` | src/main.rs:104-131 | a success line starts `Connected to ` and is in the latency colour; a failure line starts `Failed to connect to ` and is red; the second and third coloured pieces are the target and the port |
| `Report.StatusLineColour` | src/main.rs:104-131 | every status line uses a single colour; a failure uses the slowest tier's colour; a success is red exactly from 150 ms on |
| `Report.Title` | src/main.rs:101 | no contract of its own: `Report.TitleMatchesStatusLines` relates it to the status lines |
| `Report.TitleMatchesStatusLines` | src/main.rs:101 | after `Probing `, the title is the target-and-port text of both status lines |
| `Report.TitleEscape` | src/main.rs:61 | no contract of its own: `Report.TitleEscapeRoundTrip` states how the title is read back |
| `Report.TitleEscapeRoundTrip` | src/main.rs:59-62 | the title can be read back from the escape sequence, between the four-character introducer and the closing BEL |
| `Report.Append` | src/main.rs:114-121 | printing two pieces in a row prints their texts and coloured texts in that order, and one shared colour stays shared |
| `Session.Iteration` | src/main.rs:102-133 | a pass uses the timeout both as connect deadline and as sleep, and its line is coloured as the attempt dictates |
| `Session.Passes` | src/main.rs:102-133 | a run prints one line per attempt, each determined by that attempt alone, and every pass uses the configured timeout |
| `Session.PassesSplit` | src/main.rs:102-133 | a run's passes are the passes of its first part followed by those of the rest |

## Left out

- `Cli.Interpret`: the argument vector is assumed to be valid Unicode. `std::env::args()` panics while collecting (status 101) when an argument is not, and that panic is not modelled, because a `seq<string>` input cannot express it.
- Host resolution (`to_socket_addrs`, src/main.rs:31-45) is a foreign call. It is the `resolve` parameter of `Cli.Interpret`. Only the branching on its answer is modelled.
- `is_port_open` (src/main.rs:19-29) parses an IP literal and connects with a deadline. Both are library or network calls. Each connect is an `Attempt` input. The "Could not parse ip" exit with status 1 is not modelled. That exit is what happens on the first pass when the lookup found no address and the target is the empty string.
- A zero timeout is accepted at start-up (`Cli.ZeroTimeout`); what follows is outside the model. Rust's `connect_timeout` rejects a zero duration with `InvalidInput`, and `sleep` of zero returns at once, so `-t 0` gives a loop that prints "Failed" lines with no pause.
- The clock (`Instant`), `thread::sleep` and the endless loop (src/main.rs:102-133) are left out. `Session.Passes` covers any finite run of attempts instead.
- Terminal output through `termcolor` (src/main.rs:65-75) and the Windows `SetConsoleTitleW` call (src/main.rs:50-57) are foreign I/O. Only the text and the colour choice are modelled, plus the title escape used on other systems.
- `process::exit` and Rust panics are `Outcome` values. The exit statuses are in `Cli.ExitCode`. The panic message text is not modelled.
- The stderr and usage texts are `Cli.Diagnostic` and `Cli.UsageText`. They carry no contract.
- Elapsed milliseconds are a `u128` in the program and a `nat` here. No real run reaches the `u128` bound.

## Findings

| source | as written | input that shows it | evidently intended | confidence | as-written member | corrected member |
|---|---|---|---|---|---|---|
| src/main.rs:9 | the value after the flag is read as `args[index + 1]` with no bounds check | `tcping 10.0.0.1 80 -t` | report `-t <timeout in seconds>` on stderr and exit with status 1, as for an unparsable value | high, not executed | `Cli.TrailingFlag` | `Cli.CheckedStartup` |
