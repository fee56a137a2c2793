/**
 * The `--port PORT[:PORT]` option: a single non-zero port or an inclusive
 * range of them, and the ports a value stands for. Leaving the option out
 * means a random port, which no text parses to.
 */
module Cli {
  import opened Common

  /** `NonZeroU16` */
  type NonZeroU16 = n: nat | 0 < n < U16_LIMIT witness 1

  /** `NonZeroU16::from_str`: the `u16` parse, with zero an error of its own. */
  function ParseNonZeroU16(s: string): (r: Result<NonZeroU16, IntErrorKind>)
    ensures r.Ok? <==> ParseU16(s).Ok? && ParseU16(s).value != 0
    ensures r.Ok? ==> r.value == ParseU16(s).value
    ensures ParseU16(s).Err? ==> r == Err(ParseU16(s).error)
    ensures ParseU16(s) == Ok(0) ==> r == Err(Zero)
  {
    match ParseU16(s)
    case Err(kind) => Err(kind)
    case Ok(n) => if n == 0 then Err(Zero) else Ok(n)
  }

  datatype PortOrRange =
    | RandomPort
    | SinglePort(port: NonZeroU16)
    | Range(start: NonZeroU16, end: NonZeroU16)  // inclusive

  datatype RangeParseError = BadInt(kind: IntErrorKind) | EmptyRange

  /** `str::split_once`: the text before and after the first `c`. */
  function SplitOnce(s: string, c: char): (r: Option<(string, string)>)
    ensures r.None? <==> c !in s
    ensures r.Some? ==> r.value.0 + [c] + r.value.1 == s && c !in r.value.0
  {
    if s == [] then None
    else if s[0] == c then
      assert [] + [c] + s[1..] == s;
      Some(([], s[1..]))
    else match SplitOnce(s[1..], c)
      case None => None
      case Some(parts) =>
        assert [s[0]] + parts.0 + [c] + parts.1 == s;
        Some(([s[0]] + parts.0, parts.1))
  }

  /** `PortOrRange::from_str`: text without a `:` is one port; text with one
      is split at the first `:` and both halves are parsed, the start first;
      a range must run upwards; and nothing parses to a random port. */
  function FromStr(s: string): (r: Result<PortOrRange, RangeParseError>)
    ensures ':' !in s ==>
      && (r.Ok? <==> ParseNonZeroU16(s).Ok?)
      && (r.Ok? ==> r.value == SinglePort(ParseNonZeroU16(s).value))
      && (r.Err? ==> r.error == BadInt(ParseNonZeroU16(s).error))
    ensures ':' in s ==>
      var start, end := SplitOnce(s, ':').value.0, SplitOnce(s, ':').value.1;
      && (ParseNonZeroU16(start).Err? ==> r == Err(BadInt(ParseNonZeroU16(start).error)))
      && (ParseNonZeroU16(start).Ok? && ParseNonZeroU16(end).Err? ==>
            r == Err(BadInt(ParseNonZeroU16(end).error)))
      && (ParseNonZeroU16(start).Ok? && ParseNonZeroU16(end).Ok? ==>
            var lo, hi := ParseNonZeroU16(start).value, ParseNonZeroU16(end).value;
            r == if lo <= hi then Ok(Range(lo, hi)) else Err(EmptyRange))
    ensures r.Ok? ==> !r.value.RandomPort?
    ensures r.Ok? && r.value.Range? ==> r.value.start <= r.value.end
    ensures r == Err(EmptyRange) ==> ':' in s
  {
    match SplitOnce(s, ':')
    case Some((start, end)) =>
      (match ParseNonZeroU16(start)
       case Err(kind) => Err(BadInt(kind))
       case Ok(lo) =>
         match ParseNonZeroU16(end)
         case Err(kind) => Err(BadInt(kind))
         case Ok(hi) => if lo <= hi then Ok(Range(lo, hi)) else Err(EmptyRange))
    case None =>
      match ParseNonZeroU16(s)
      case Err(kind) => Err(BadInt(kind))
      case Ok(p) => Ok(SinglePort(p))
  }

  /** `PortOrRange::into_iter`: the ports in ascending order. */
  function Ports(p: PortOrRange): (r: seq<u16>)
    ensures p.RandomPort? ==> r == [0]
    ensures p.SinglePort? ==> r == [p.port]
    ensures p.Range? ==> |r| == if p.start <= p.end then p.end - p.start + 1 else 0
    ensures p.Range? ==> forall k :: 0 <= k < |r| ==> r[k] == p.start + k
  {
    match p
    case RandomPort => [0]
    case SinglePort(port) => [port]
    case Range(start, end) => PortsFrom(start, end)
  }

  function PortsFrom(lo: u16, hi: u16): (r: seq<u16>)
    ensures |r| == if lo <= hi then hi - lo + 1 else 0
    ensures forall k :: 0 <= k < |r| ==> r[k] == lo + k
    decreases hi - lo
  {
    if lo > hi then [] else if lo == hi then [lo] else [lo] + PortsFrom(lo + 1, hi)
  }

  /** A bad end is reported once the start has parsed. */
  lemma FromStrBadEnd()
    ensures FromStr("1:abc") == Err(BadInt(InvalidDigit))
  {
    SplitOnceAt("1", "abc", ':');
    assert "1" + [':'] + "abc" == "1:abc";
    assert ParseU16("1") == Ok(1) by {
      assert UnsignedDigits("1") == "1";
      assert AccumulateU16(0, "1") == AccumulateU16(1, "");
    }
    assert ParseU16("abc") == Err(InvalidDigit) by {
      assert UnsignedDigits("abc") == "abc";
    }
  }

  /** A range that runs downwards is an error even when both halves parse,
      leading `+` and zeros included. */
  lemma FromStrDownwardRange()
    ensures FromStr("+80:0079") == Err(EmptyRange)
  {
    var start, end := "+80", "0079";
    SplitOnceAt(start, end, ':');
    assert start + [':'] + end == "+80:0079";
    ParseExamples();
  }

  /** The two halves of `+80:0079`. */
  lemma ParseExamples()
    ensures ParseNonZeroU16("+80") == Ok(80)
    ensures ParseNonZeroU16("0079") == Ok(79)
  {
    var plus80, d80 := "+80", "80";
    assert UnsignedDigits(plus80) == d80;
    assert d80[1..] == "0";
    var d0079, d079, d79 := "0079", "079", "79";
    assert UnsignedDigits(d0079) == d0079;
    assert d0079[1..] == d079 && d079[1..] == d79 && d79[1..] == "9";
  }

  /** Every value the parser yields stands for at least one port, in
      strictly ascending order. */
  lemma ParsedPortsAscending(s: string)
    requires FromStr(s).Ok?
    ensures |Ports(FromStr(s).value)| >= 1
    ensures forall i, j :: 0 <= i < j < |Ports(FromStr(s).value)| ==>
      Ports(FromStr(s).value)[i] < Ports(FromStr(s).value)[j]
  {
  }

  /** The decimal form of a non-zero port parses back to that port, and
      `start:end` to the range when it runs upwards. */
  lemma FromStrRoundTrip(p: NonZeroU16, q: NonZeroU16)
    ensures FromStr(NatToString(p)) == Ok(SinglePort(p))
    ensures FromStr(NatToString(p) + ":" + NatToString(q)) == if p <= q then Ok(Range(p, q)) else Err(EmptyRange)
  {
    ParseU16RoundTrip(p);
    ParseU16RoundTrip(q);
    var sp, sq := NatToString(p), NatToString(q);
    assert ':' !in sp by {
      assert forall i :: 0 <= i < |sp| ==> IsDigit(sp[i]);
    }
    assert ':' !in sq by {
      assert forall i :: 0 <= i < |sq| ==> IsDigit(sq[i]);
    }
    var split := SplitOnce(sp + ":" + sq, ':');
    assert split == Some((sp, sq)) by {
      SplitOnceAt(sp, sq, ':');
    }
  }

  /** Splitting at a separator that occurs once gives back both sides. */
  lemma {:induction false} SplitOnceAt(a: string, b: string, c: char)
    requires c !in a
    ensures SplitOnce(a + [c] + b, c) == Some((a, b))
    decreases |a|
  {
    if a == [] {
      assert a + [c] + b == [c] + b;
    } else {
      assert (a + [c] + b)[1..] == a[1..] + [c] + b;
      SplitOnceAt(a[1..], b, c);
      assert [a[0]] + a[1..] == a;
    }
  }

  /** A zero port and an empty text are integer errors. */
  lemma FromStrRejectsZero()
    ensures FromStr("0") == Err(BadInt(Zero))
    ensures FromStr("") == Err(BadInt(Empty))
    ensures FromStr("0:5") == Err(BadInt(Zero))
  {
    assert SplitOnce("0", ':') == None;
    assert SplitOnce("0:5", ':') == Some(("0", "5")) by {
      SplitOnceAt("0", "5", ':');
    }
  }
}
