/**
 * The second display line, `sprintf(line1, "%02d:%02d:%02d", hour, minute, second)`:
 * each field in decimal, padded on the left with zeros to at least two digits.
 * ParseTimeLine is its inverse on the lines it produces.
 */
module TimeLine {
  import opened MachineTypes

  /** Size of the `line1` buffer, terminator included. */
  const LINE_BUFFER: nat := 17

  /** The part of the clock's DateTime that the line shows; RTClib returns each as `uint8_t`. */
  datatype ClockTime = ClockTime(hour: u8, minute: u8, second: u8)

  predicate IsWallClock(t: ClockTime) {
    t.hour < 24 && t.minute < 60 && t.second < 60
  }

  predicate IsDigit(c: char) {
    '0' <= c <= '9'
  }

  predicate AllDigits(s: string) {
    forall i :: 0 <= i < |s| ==> IsDigit(s[i])
  }

  function DigitValue(c: char): (d: nat)
    requires IsDigit(c)
    ensures d < 10
  {
    c as int - '0' as int
  }

  function DigitChar(d: nat): (c: char)
    requires d < 10
    ensures IsDigit(c) && DigitValue(c) == d
  {
    (d + '0' as int) as char
  }

  function Pow10(k: nat): (p: nat)
    ensures p >= 1
  {
    if k == 0 then 1 else 10 * Pow10(k - 1)
  }

  /** The number a string of decimal digits denotes, most significant digit first. */
  function DigitsValue(s: string): (n: nat)
    requires AllDigits(s)
    ensures n < Pow10(|s|)
  {
    if s == [] then 0
    else DigitsValue(s[..|s| - 1]) * 10 + DigitValue(s[|s| - 1])
  }

  /** `%d` of a non-negative int: its decimal digits without leading zeros. */
  function Decimal(n: nat): (s: string)
    ensures AllDigits(s)
    ensures |s| >= 1 && (|s| > 1 ==> s[0] != '0')
    ensures n < 10 ==> |s| == 1
    ensures 10 <= n < 100 ==> |s| == 2
    ensures 100 <= n < 1000 ==> |s| == 3
  {
    if n < 10 then [DigitChar(n)] else Decimal(n / 10) + [DigitChar(n % 10)]
  }

  /** `%02d`: the decimal digits, padded on the left with '0' to a width of two. */
  function ZeroPad2(n: nat): (s: string)
    ensures AllDigits(s) && |s| >= 2
    ensures n < 100 ==> |s| == 2
    ensures 100 <= n < 1000 ==> |s| == 3
  {
    var d := Decimal(n);
    if |d| < 2 then ['0'] + d else d
  }

  /** The full text of line1 for a clock reading. */
  function Format(t: ClockTime): (line: string)
    ensures |line| + 1 <= LINE_BUFFER && '\0' !in line
    ensures IsWallClock(t) ==> |line| == 8 && line[2] == ':' && line[5] == ':'
  {
    ZeroPad2(t.hour) + ":" + ZeroPad2(t.minute) + ":" + ZeroPad2(t.second)
  }

  /** Reads "HH:MM:SS" back; anything else is not a line Format writes for such a time. */
  function ParseTimeLine(s: string): (r: Option<ClockTime>)
    ensures r.Some? ==> r.value.hour < 100 && r.value.minute < 100 && r.value.second < 100
  {
    if |s| == 8 && s[2] == ':' && s[5] == ':'
       && AllDigits(s[0..2]) && AllDigits(s[3..5]) && AllDigits(s[6..8])
    then Some(ClockTime(DigitsValue(s[0..2]), DigitsValue(s[3..5]), DigitsValue(s[6..8])))
    else None
  }

  /** Reading the decimal digits back gives the number. */
  lemma {:induction false} DecimalRoundTrip(n: nat)
    ensures DigitsValue(Decimal(n)) == n
  {
    if n >= 10 {
      var s := Decimal(n);
      var init := Decimal(n / 10);
      assert s[..|s| - 1] == init;
      DecimalRoundTrip(n / 10);
    }
  }

  /** Leading zeros do not change the value of a digit string. */
  lemma {:induction false} LeadingZero(s: string)
    requires AllDigits(s)
    ensures AllDigits(['0'] + s) && DigitsValue(['0'] + s) == DigitsValue(s)
  {
    if s != [] {
      var z := ['0'] + s;
      assert z[..|z| - 1] == ['0'] + s[..|s| - 1];
      LeadingZero(s[..|s| - 1]);
    }
  }

  lemma ZeroPad2RoundTrip(n: nat)
    ensures DigitsValue(ZeroPad2(n)) == n
  {
    DecimalRoundTrip(n);
    LeadingZero(Decimal(n));
  }

  /** Two digits are exactly what %02d prints for the number they denote. */
  lemma ZeroPad2OfDigits(s: string)
    requires |s| == 2 && AllDigits(s)
    ensures ZeroPad2(DigitsValue(s)) == s
  {
    var hi, lo := DigitValue(s[0]), DigitValue(s[1]);
    assert DigitsValue(s[..1]) == hi;
    var n := DigitsValue(s);
    assert n == 10 * hi + lo;
    assert DigitChar(lo) == s[1];
    if hi != 0 {
      assert n >= 10 && n / 10 == hi && n % 10 == lo;
      assert DigitChar(hi) == s[0];
      assert Decimal(n) == Decimal(hi) + [DigitChar(lo)] == [s[0], s[1]];
    } else {
      assert s[0] == '0';
    }
  }

  /** Every time whose fields have at most two digits is read back from its line. */
  lemma FormatRoundTrip(t: ClockTime)
    requires t.hour < 100 && t.minute < 100 && t.second < 100
    ensures ParseTimeLine(Format(t)) == Some(t)
  {
    var line := Format(t);
    assert line[0..2] == ZeroPad2(t.hour);
    assert line[3..5] == ZeroPad2(t.minute);
    assert line[6..8] == ZeroPad2(t.second);
    ZeroPad2RoundTrip(t.hour);
    ZeroPad2RoundTrip(t.minute);
    ZeroPad2RoundTrip(t.second);
  }

  /** Conversely, a line that parses is the line Format writes for the parsed time. */
  lemma ParsedLineIsFormat(s: string)
    requires ParseTimeLine(s).Some?
    ensures Format(ParseTimeLine(s).value) == s
  {
    ZeroPad2OfDigits(s[0..2]);
    ZeroPad2OfDigits(s[3..5]);
    ZeroPad2OfDigits(s[6..8]);
    assert s == s[0..2] + ":" + s[3..5] + ":" + s[6..8];
  }

  /** A wall-clock time gives "HH:MM:SS": 8 characters, each field two digits denoting its value. */
  lemma WallClockLine(t: ClockTime)
    requires IsWallClock(t)
    ensures var line := Format(t);
      |line| == 8 && line[2] == ':' && line[5] == ':'
      && DigitsValue(line[0..2]) == t.hour && DigitsValue(line[3..5]) == t.minute
      && DigitsValue(line[6..8]) == t.second
  {
    FormatRoundTrip(t);
  }
}
