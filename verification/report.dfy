/**
 What one probe attempt writes to the terminal: a status line made of text
 segments, some printed in a colour and some in the terminal's default, and
 the window title set once at start-up.

 A successful connect is coloured by a latency tier of the elapsed
 milliseconds; a failed one is always coloured like the slowest tier.
 */
module Report {
  import opened Optional
  import opened Numerals

  type Byte = x: nat | x < 256

  /** A 24-bit foreground colour. */
  datatype Rgb = Rgb(red: Byte, green: Byte, blue: Byte)

  const GREEN: Rgb := Rgb(6, 156, 86)
  const ORANGE: Rgb := Rgb(255, 152, 14)
  const RED: Rgb := Rgb(211, 33, 44)

  /** Latency tiers, fastest first. */
  datatype Tier = Fast | Medium | Slow

  /** Position of a tier in the order fastest to slowest. */
  function Rank(t: Tier): nat {
    match t
    case Fast => 0
    case Medium => 1
    case Slow => 2
  }

  /** The tier of an elapsed time in milliseconds: up to 99, 100 to 149,
      and everything above. */
  function Classify(ms: nat): (t: Tier)
    ensures t == Fast <==> 0 <= ms <= 99
    ensures t == Medium <==> 100 <= ms <= 149
    ensures t == Slow <==> ms >= 150
  {
    if ms <= 99 then Fast
    else if ms <= 149 then Medium
    else Slow
  }

  function TierColour(t: Tier): Rgb {
    match t
    case Fast => GREEN
    case Medium => ORANGE
    case Slow => RED
  }

  /** The colour a successful connect taking `ms` milliseconds is shown in. */
  function LatencyColour(ms: nat): (c: Rgb)
    ensures c == GREEN <==> ms <= 99
    ensures c == ORANGE <==> 100 <= ms <= 149
    ensures c == RED <==> ms >= 150
  {
    TierColour(Classify(ms))
  }

  /** A piece of a status line; `colour` is `None` for text printed in the
      terminal's default colour. */
  datatype Segment = Segment(text: string, colour: Option<Rgb>)

  type Line = seq<Segment>

  function Plain(text: string): Segment {
    Segment(text, None)
  }

  function Coloured(text: string, c: Rgb): Segment {
    Segment(text, Some(c))
  }

  /** Everything a line writes, colours dropped. */
  function Text(line: Line): string
    decreases |line|
  {
    if line == [] then "" else line[0].text + Text(line[1..])
  }

  /** The texts written in colour, in order. */
  function ColouredTexts(line: Line): seq<string>
    decreases |line|
  {
    if line == [] then []
    else if line[0].colour.Some? then [line[0].text] + ColouredTexts(line[1..])
    else ColouredTexts(line[1..])
  }

  /** Every coloured segment of the line uses colour `c`. */
  predicate ColouredWith(line: Line, c: Rgb) {
    forall i :: 0 <= i < |line| && line[i].colour.Some? ==> line[i].colour.value == c
  }

  /** The outcome of one probe: connected after `elapsedMs` milliseconds,
      or not connected (refused, timed out, or any other connect error). */
  datatype Attempt = Connected(elapsedMs: nat) | NotConnected

  /** One coloured piece of text and the plain text printed after it. */
  function Pair(coloured: string, plain: string, c: Rgb): Line {
    [Coloured(coloured, c), Plain(plain)]
  }

  /** The line for a successful connect. */
  function ConnectedLine(target: string, port: nat, ms: nat): (line: Line)
    ensures Text(line) ==
      "Connected to " + target + " on port " + Decimal(port) + " ms: " + Decimal(ms) + "\n"
    ensures ColouredWith(line, LatencyColour(ms))
    ensures ColouredTexts(line) == ["Connected ", target, Decimal(port), Decimal(ms)]
  {
    var c := LatencyColour(ms);
    var a, b, d, e := Pair("Connected ", "to ", c), Pair(target, " on port ", c),
                      Pair(Decimal(port), " ms: ", c), Pair(Decimal(ms), "\n", c);
    PairParts("Connected ", "to ", c);
    PairParts(target, " on port ", c);
    PairParts(Decimal(port), " ms: ", c);
    PairParts(Decimal(ms), "\n", c);
    Append(a, b);
    Append(a + b, d);
    Append(a + b + d, e);
    a + b + d + e
  }

  /** The line for a failed connect. */
  function FailedLine(target: string, port: nat): (line: Line)
    ensures Text(line) == "Failed to connect to " + target + " on port " + Decimal(port) + "\n"
    ensures ColouredWith(line, RED)
    ensures ColouredTexts(line) == ["Failed ", target, Decimal(port)]
  {
    var a, b, d := Pair("Failed ", "to connect to ", RED), Pair(target, " on port ", RED),
                   Pair(Decimal(port), "\n", RED);
    PairParts("Failed ", "to connect to ", RED);
    PairParts(target, " on port ", RED);
    PairParts(Decimal(port), "\n", RED);
    Append(a, b);
    Append(a + b, d);
    a + b + d
  }

  /** The line one probe attempt prints. */
  function StatusLine(target: string, port: nat, attempt: Attempt): (line: Line)
    ensures attempt.Connected? ==> ColouredWith(line, LatencyColour(attempt.elapsedMs))
    ensures attempt.NotConnected? ==> ColouredWith(line, RED)
    ensures attempt.Connected? ==> "Connected to " <= Text(line)
    ensures attempt.NotConnected? ==> "Failed to connect to " <= Text(line)
    ensures |ColouredTexts(line)| >= 3 && ColouredTexts(line)[1] == target && ColouredTexts(line)[2] == Decimal(port)
  {
    match attempt
    case Connected(ms) => ConnectedLine(target, port, ms)
    case NotConnected => FailedLine(target, port)
  }

  /** The window title set at start-up. */
  function Title(target: string, port: nat): string {
    "Probing " + target + " on port " + Decimal(port)
  }

  const ESC: char := 27 as char
  const BEL: char := 7 as char

  /** The operating-system-command escape that sets the window title on
      terminals other than the Windows console. */
  function TitleEscape(title: string): string {
    [ESC, ']', '2', ';'] + title + [BEL]
  }

  // ---------------------------------------------------------------------
  // Proofs about lines

  lemma PairParts(coloured: string, plain: string, c: Rgb)
    ensures Text(Pair(coloured, plain, c)) == coloured + plain
    ensures ColouredTexts(Pair(coloured, plain, c)) == [coloured]
    ensures ColouredWith(Pair(coloured, plain, c), c)
  {
    var p := Pair(coloured, plain, c);
    assert p[1..][1..] == [];
    assert Text(p[1..]) == plain + "";
    assert ColouredTexts(p[1..]) == [];
  }

  /** Writing two lines one after the other writes their texts one after the
      other, colours included. */
  lemma {:induction false} Append(a: Line, b: Line)
    ensures Text(a + b) == Text(a) + Text(b)
    ensures ColouredTexts(a + b) == ColouredTexts(a) + ColouredTexts(b)
    ensures forall c :: ColouredWith(a, c) && ColouredWith(b, c) ==> ColouredWith(a + b, c)
    decreases |a|
  {
    if a == [] {
      assert a + b == b;
    } else {
      assert (a + b)[1..] == a[1..] + b;
      Append(a[1..], b);
    }
  }

  // ---------------------------------------------------------------------
  // Properties of the report

  /** The tier edges: 0 and 99 are fast, 100 and 149 medium, 150 slow. */
  lemma TierBoundaries()
    ensures LatencyColour(0) == GREEN && LatencyColour(99) == GREEN
    ensures LatencyColour(100) == ORANGE && LatencyColour(149) == ORANGE
    ensures LatencyColour(150) == RED
  {
  }

  /** A longer connect never lands in a faster tier. */
  lemma ClassifyMonotone(a: nat, b: nat)
    requires a <= b
    ensures Rank(Classify(a)) <= Rank(Classify(b))
  {
  }

  /** The three colours are distinct, so the colour tells the tier. */
  lemma TierColourInjective(s: Tier, t: Tier)
    requires TierColour(s) == TierColour(t)
    ensures s == t
  {
  }

  /** Every status line is written in a single colour, and that colour is
      the slowest tier's exactly when the connect failed or took at least
      150 milliseconds. */
  lemma StatusLineColour(target: string, port: nat, attempt: Attempt)
    ensures attempt.Connected? ==> ColouredWith(StatusLine(target, port, attempt), LatencyColour(attempt.elapsedMs))
    ensures attempt.NotConnected? ==> ColouredWith(StatusLine(target, port, attempt), TierColour(Slow))
    ensures attempt.Connected? ==> (LatencyColour(attempt.elapsedMs) == RED <==> attempt.elapsedMs >= 150)
  {
  }

  /** The title and the status lines name the same target and port: after
      its first word the title is the middle of every status line. */
  lemma TitleMatchesStatusLines(target: string, port: nat, ms: nat)
    ensures var place := Title(target, port)[|"Probing "|..];
            && Text(ConnectedLine(target, port, ms)) == "Connected to " + place + " ms: " + Decimal(ms) + "\n"
            && Text(FailedLine(target, port)) == "Failed to connect to " + place + "\n"
  {
    var place := target + " on port " + Decimal(port);
    TitleTail(target, port);
    assert "Connected to " + target + " on port " + Decimal(port) + " ms: " + Decimal(ms) + "\n"
        == "Connected to " + place + " ms: " + Decimal(ms) + "\n";
    assert "Failed to connect to " + target + " on port " + Decimal(port) + "\n"
        == "Failed to connect to " + place + "\n";
  }

  lemma TitleTail(target: string, port: nat)
    ensures Title(target, port)[|"Probing "|..] == target + " on port " + Decimal(port)
  {
  }

  /** The title can be read back from its escape sequence: it sits between
      the four-character introducer and the closing BEL. */
  lemma TitleEscapeRoundTrip(title: string)
    ensures var e := TitleEscape(title);
            |e| == |title| + 5 && e[4..|e| - 1] == title && e[|e| - 1] == BEL
  {
  }
}
