/**
 * Value types shared by every module of the model: optional values and
 * fallible results, the three-way ordering used by comparators, ASCII
 * lower-casing, and the decimal text form of unsigned integers (formatting
 * with `format!("{}")` and parsing with `u16::from_str`).
 */
module Common {

  datatype Option<+T> = None | Some(value: T) {
    function GetOr(default: T): T {
      match this
      case Some(v) => v
      case None => default
    }
  }

  datatype Result<+T, +E> = Ok(value: T) | Err(error: E)

  /** The outcome of an expression that may abort the process (an `unwrap`
      on a missing value, a failed `assert_eq!`). */
  datatype Fallible<+T> = Done(value: T) | Panics

  /** `std::cmp::Ordering` */
  datatype Ordering = Less | Equal | Greater {
    /** `Ordering::then_with`: the second comparison breaks ties of the first. */
    function ThenWith(tieBreak: Ordering): Ordering {
      if this == Equal then tieBreak else this
    }
  }

  // ---------------------------------------------------------------------
  // Fixed-width integers

  const U16_LIMIT: nat := 0x1_0000
  const U32_LIMIT: nat := 0x1_0000_0000
  const U64_LIMIT: nat := 0x1_0000_0000_0000_0000
  const I32_MAX: nat := 0x7FFF_FFFF

  type u16 = n: nat | n < U16_LIMIT
  type u32 = n: nat | n < U32_LIMIT
  type u64 = n: nat | n < U64_LIMIT

  /** `usize::MAX` on a 64-bit target. */
  const USIZE_MAX: nat := U64_LIMIT - 1

  // ---------------------------------------------------------------------
  // ASCII case folding (`str::to_ascii_lowercase`)

  function AsciiLowerChar(c: char): (r: char)
    ensures 'A' <= c <= 'Z' ==> r as int == c as int + 32
    ensures !('A' <= c <= 'Z') ==> r == c
    ensures !('A' <= r <= 'Z')
  {
    if 'A' <= c <= 'Z' then (c as int + 32) as char else c
  }

  function AsciiLower(s: string): (r: string)
    ensures |r| == |s|
    ensures forall i :: 0 <= i < |s| ==> r[i] == AsciiLowerChar(s[i])
  {
    if s == [] then [] else [AsciiLowerChar(s[0])] + AsciiLower(s[1..])
  }

  /** Lower-casing is idempotent: an already lower-cased string is left alone. */
  lemma AsciiLowerIdempotent(s: string)
    ensures AsciiLower(AsciiLower(s)) == AsciiLower(s)
  {
    var once := AsciiLower(s);
    assert forall i :: 0 <= i < |once| ==> AsciiLowerChar(once[i]) == once[i];
  }

  // ---------------------------------------------------------------------
  // Decimal text

  predicate IsDigit(c: char) {
    '0' <= c <= '9'
  }

  function DigitChar(d: nat): (c: char)
    requires d < 10
    ensures IsDigit(c)
  {
    (('0' as int) + d) as char
  }

  function DigitValue(c: char): (d: nat)
    requires IsDigit(c)
    ensures d < 10
  {
    c as int - '0' as int
  }

  /** `format!("{}", n)` for an unsigned integer: shortest decimal form. */
  function NatToString(n: nat): (s: string)
    ensures |s| > 0 && AllDigits(s) && s[0] != '+'
    decreases n
  {
    if n < 10 then [DigitChar(n)] else NatToString(n / 10) + [DigitChar(n % 10)]
  }

  predicate AllDigits(s: string) {
    forall i :: 0 <= i < |s| ==> IsDigit(s[i])
  }

  /** Left-to-right decimal value of `digits` after the prefix value `acc`. */
  function DecimalValue(acc: nat, digits: string): nat
    requires AllDigits(digits)
    decreases |digits|
  {
    if digits == [] then acc else DecimalValue(acc * 10 + DigitValue(digits[0]), digits[1..])
  }

  /** `ParseIntError`'s kinds that an unsigned parse can report. */
  datatype IntErrorKind = Empty | InvalidDigit | PosOverflow | Zero

  /** The digit loop of `u16::from_str_radix(_, 10)`: for each character, in
      order, a non-digit is reported first, then an overflow of `acc * 10 + d`. */
  function AccumulateU16(acc: u16, digits: string): (r: Result<u16, IntErrorKind>)
    ensures r.Ok? <==> AllDigits(digits) && DecimalValue(acc, digits) < U16_LIMIT
    ensures r.Ok? ==> r.value == DecimalValue(acc, digits)
    decreases |digits|
  {
    if digits == [] then Ok(acc)
    else if !IsDigit(digits[0]) then Err(InvalidDigit)
    else if acc * 10 + DigitValue(digits[0]) >= U16_LIMIT then
      assert AllDigits(digits) ==> DecimalValue(acc, digits) >= U16_LIMIT by {
        if AllDigits(digits) {
          assert AllDigits(digits[1..]);
          DecimalValueAtLeast(acc * 10 + DigitValue(digits[0]), digits[1..]);
        }
      }
      Err(PosOverflow)
    else AccumulateU16(acc * 10 + DigitValue(digits[0]), digits[1..])
  }

  /** The digits `u16::from_str` reads: the input without one leading `+`. */
  function UnsignedDigits(s: string): string {
    if |s| > 0 && s[0] == '+' then s[1..] else s
  }

  /** `u16::from_str`: an optional leading `+`, then at least one decimal
      digit, and a value below 2^16. */
  function ParseU16(s: string): (r: Result<u16, IntErrorKind>)
    ensures r.Ok? <==> |UnsignedDigits(s)| > 0 && AllDigits(UnsignedDigits(s))
                       && DecimalValue(0, UnsignedDigits(s)) < U16_LIMIT
    ensures r.Ok? ==> r.value == DecimalValue(0, UnsignedDigits(s))
    ensures s == [] ==> r == Err(Empty)
  {
    if s == [] then Err(Empty)
    else if (s[0] == '+' || s[0] == '-') && |s| == 1 then Err(InvalidDigit)
    else AccumulateU16(0, UnsignedDigits(s))
  }

  lemma {:induction false} DecimalValueAtLeast(acc: nat, digits: string)
    requires AllDigits(digits)
    ensures DecimalValue(acc, digits) >= acc
    decreases |digits|
  {
    if digits != [] {
      DecimalValueAtLeast(acc * 10 + DigitValue(digits[0]), digits[1..]);
    }
  }

  lemma {:induction false} DecimalValueAppend(acc: nat, digits: string, c: char)
    requires AllDigits(digits)
    requires IsDigit(c)
    ensures DecimalValue(acc, digits + [c]) == DecimalValue(acc, digits) * 10 + DigitValue(c)
    decreases |digits|
  {
    if digits == [] {
      assert digits + [c] == [c];
    } else {
      assert (digits + [c])[1..] == digits[1..] + [c];
      DecimalValueAppend(acc * 10 + DigitValue(digits[0]), digits[1..], c);
    }
  }

  lemma {:induction false} NatToStringValue(n: nat)
    ensures DecimalValue(0, NatToString(n)) == n
    decreases n
  {
    if n >= 10 {
      NatToStringValue(n / 10);
      DecimalValueAppend(0, NatToString(n / 10), DigitChar(n % 10));
    }
  }

  /** Parsing the decimal form of any `u16` gives it back. */
  lemma ParseU16RoundTrip(n: u16)
    ensures ParseU16(NatToString(n)) == Ok(n)
  {
    NatToStringValue(n);
  }

  /** Distinct numbers have distinct decimal forms. */
  lemma NatToStringInjective(m: nat, n: nat)
    requires NatToString(m) == NatToString(n)
    ensures m == n
  {
    NatToStringValue(m);
    NatToStringValue(n);
  }
}
