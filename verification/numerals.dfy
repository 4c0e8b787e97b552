/**
 Decimal text for unsigned integers as the program uses it: `str::parse` into
 `u16` (the port) and `u64` (the timeout), and `to_string` for the port and
 the elapsed milliseconds in the status line.

 The parser follows Rust's `from_str_radix` for unsigned types in radix 10:
 the empty string is an `Empty` error, a lone sign is an `InvalidDigit`
 error, one leading `+` is skipped, and the remaining characters are read
 left to right; at each position a non-digit is reported before an overflow.
 */
module Numerals {

  const U16_MAX: nat := 0xFFFF
  const U64_MAX: nat := 0xFFFF_FFFF_FFFF_FFFF

  /** The kinds of `ParseIntError` an unsigned parse can produce. */
  datatype IntErrorKind = Empty | InvalidDigit | PosOverflow

  /** The outcome of `str::parse::<uN>()`. */
  datatype Parsed = Parsed(value: nat) | Rejected(kind: IntErrorKind)

  /** The `Display` text of a `ParseIntError` of the given kind. */
  function KindText(k: IntErrorKind): string {
    match k
    case Empty => "cannot parse integer from empty string"
    case InvalidDigit => "invalid digit found in string"
    case PosOverflow => "number too large to fit in target type"
  }

  predicate IsDigit(c: char) {
    '0' <= c <= '9'
  }

  function DigitValue(c: char): (d: nat)
    requires IsDigit(c)
    ensures d < 10
  {
    (c as int) - ('0' as int)
  }

  function DigitChar(d: nat): (c: char)
    requires d < 10
    ensures IsDigit(c) && DigitValue(c) == d
  {
    ('0' as int + d) as char
  }

  predicate AllDigits(s: string) {
    forall i :: 0 <= i < |s| ==> IsDigit(s[i])
  }

  /** The number a digit string denotes, read most significant digit first
      and appended to the already accumulated value `acc`. */
  function Fold(acc: nat, s: string): nat
    requires AllDigits(s)
    decreases |s|
  {
    if s == [] then acc else Fold(acc * 10 + DigitValue(s[0]), s[1..])
  }

  /** The number a digit string denotes. */
  function Magnitude(s: string): nat
    requires AllDigits(s)
  {
    Fold(0, s)
  }

  /** The part of the input the digit loop reads: everything after one
      optional leading `+`. */
  function DigitsOf(s: string): (d: string)
    ensures |s| > 0 && s[0] == '+' ==> d == s[1..]
    ensures (|s| == 0 || s[0] != '+') ==> d == s
  {
    if |s| > 0 && s[0] == '+' then s[1..] else s
  }

  /** The shape Rust accepts for an unsigned integer: an optional `+`
      followed by at least one ASCII digit and nothing else. */
  predicate WellFormed(s: string) {
    |DigitsOf(s)| > 0 && AllDigits(DigitsOf(s))
  }

  /** The digit loop: `acc` is the value read so far; every step checks the
      next character, then whether `acc * 10 + digit` still fits in `max`. */
  function Scan(acc: nat, digits: string, max: nat): (r: Parsed)
    requires acc <= max
    ensures r.Parsed? ==> acc <= r.value <= max
    ensures r != Rejected(Empty)
    decreases |digits|
  {
    if digits == [] then Parsed(acc)
    else if !IsDigit(digits[0]) then Rejected(InvalidDigit)
    else if acc * 10 + DigitValue(digits[0]) > max then Rejected(PosOverflow)
    else Scan(acc * 10 + DigitValue(digits[0]), digits[1..], max)
  }

  /** `s.parse::<uN>()` where `max` is the largest value of `uN`. */
  function ParseUnsigned(s: string, max: nat): (r: Parsed)
    ensures r.Parsed? ==> r.value <= max
    ensures r == Rejected(Empty) <==> s == []
  {
    if s == [] then Rejected(Empty)
    else if |s| == 1 && (s[0] == '+' || s[0] == '-') then Rejected(InvalidDigit)
    else Scan(0, DigitsOf(s), max)
  }

  /** `n.to_string()`: decimal digits, most significant first, no leading zero. */
  function Decimal(n: nat): (s: string)
    ensures |s| > 0 && AllDigits(s)
    ensures s[0] == '0' ==> n == 0
    decreases n
  {
    if n < 10 then [DigitChar(n)] else Decimal(n / 10) + [DigitChar(n % 10)]
  }

  /** Reading more digits never makes the accumulated value smaller. */
  lemma {:induction false} FoldAtLeast(acc: nat, s: string)
    requires AllDigits(s)
    ensures Fold(acc, s) >= acc
    decreases |s|
  {
    if s != [] {
      FoldAtLeast(acc * 10 + DigitValue(s[0]), s[1..]);
    }
  }

  /** Appending one digit multiplies the value by ten and adds the digit. */
  lemma {:induction false} FoldSnoc(acc: nat, s: string, c: char)
    requires AllDigits(s) && IsDigit(c)
    ensures AllDigits(s + [c])
    ensures Fold(acc, s + [c]) == Fold(acc, s) * 10 + DigitValue(c)
    decreases |s|
  {
    if s == [] {
      assert s + [c] == [c];
    } else {
      assert (s + [c])[1..] == s[1..] + [c];
      FoldSnoc(acc * 10 + DigitValue(s[0]), s[1..], c);
    }
  }

  /** The digit loop succeeds exactly on digit strings whose value fits,
      and then yields that value. */
  lemma {:induction false} ScanMeaning(acc: nat, digits: string, max: nat)
    requires acc <= max
    ensures Scan(acc, digits, max).Parsed? <==> AllDigits(digits) && Fold(acc, digits) <= max
    ensures Scan(acc, digits, max).Parsed? ==> Scan(acc, digits, max).value == Fold(acc, digits)
    decreases |digits|
  {
    if digits != [] && IsDigit(digits[0]) {
      var next := acc * 10 + DigitValue(digits[0]);
      if AllDigits(digits) {
        FoldAtLeast(next, digits[1..]);
      }
      if next <= max {
        ScanMeaning(next, digits[1..], max);
        assert AllDigits(digits) <==> AllDigits(digits[1..]) by {
          if AllDigits(digits[1..]) {
            forall i | 0 <= i < |digits|
              ensures IsDigit(digits[i])
            {
              if i > 0 { assert digits[i] == digits[1..][i - 1]; }
            }
          }
        }
      }
    }
  }

  /** The parse accepts exactly the well-formed strings whose value is at
      most `max`, and returns that value. */
  lemma ParseUnsignedMeaning(s: string, max: nat)
    ensures ParseUnsigned(s, max).Parsed? <==> WellFormed(s) && Magnitude(DigitsOf(s)) <= max
    ensures ParseUnsigned(s, max).Parsed? ==> ParseUnsigned(s, max).value == Magnitude(DigitsOf(s))
  {
    if s != [] && !(|s| == 1 && (s[0] == '+' || s[0] == '-')) {
      ScanMeaning(0, DigitsOf(s), max);
    } else if s != [] && s[0] == '-' {
      assert !IsDigit(DigitsOf(s)[0]);
    }
  }

  /** Reading back the decimal text of `n` gives `n`. */
  lemma {:induction false} MagnitudeOfDecimal(n: nat)
    ensures Magnitude(Decimal(n)) == n
    decreases n
  {
    if n < 10 {
      assert Fold(0, Decimal(n)) == Fold(n, []);
    } else {
      MagnitudeOfDecimal(n / 10);
      FoldSnoc(0, Decimal(n / 10), DigitChar(n % 10));
    }
  }

  /** `n.to_string().parse::<uN>()` gives back `n` whenever `n` fits in `uN`. */
  lemma DecimalRoundTrip(n: nat, max: nat)
    requires n <= max
    ensures ParseUnsigned(Decimal(n), max) == Parsed(n)
  {
    var s := Decimal(n);
    assert s[0] != '+';
    MagnitudeOfDecimal(n);
    ParseUnsignedMeaning(s, max);
  }

  /** Different numbers never print the same. */
  lemma DecimalInjective(m: nat, n: nat)
    requires Decimal(m) == Decimal(n)
    ensures m == n
  {
    MagnitudeOfDecimal(m);
    MagnitudeOfDecimal(n);
  }
}
