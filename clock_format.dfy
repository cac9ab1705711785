/** `formatTime` of the flow-magnets page: seconds shown as `M:SS`, with
    the minutes `Math.floor(seconds / 60)` and the seconds
    `Math.floor(seconds % 60)` padded to two characters. JavaScript's `%`
    truncates toward zero, so it is written out. A parser for the same shape
    is the partner that shows nothing is lost. */
module ClockFormat {
  import opened Common

  predicate IsDigit(c: char)
  {
    '0' <= c <= '9'
  }

  predicate AllDigits(s: string)
  {
    forall i :: 0 <= i < |s| ==> IsDigit(s[i])
  }

  function Digit(d: nat): (c: char)
    requires d < 10
    ensures IsDigit(c)
  {
    ('0' as int + d) as char
  }

  function DigitValue(c: char): (d: nat)
    requires IsDigit(c)
    ensures d < 10
  {
    c as int - '0' as int
  }

  /** `n.toString()` for a natural number. */
  function NatToString(n: nat): (s: string)
    ensures 1 <= |s|
    ensures AllDigits(s)
    ensures n < 10 <==> |s| == 1
    ensures 10 <= n < 100 ==> |s| == 2
  {
    if n < 10 then [Digit(n)] else NatToString(n / 10) + [Digit(n % 10)]
  }

  /** `i.toString()` for an integer. */
  function IntToString(i: int): string
  {
    if i < 0 then "-" + NatToString(-i) else NatToString(i)
  }

  /** `s.padStart(2, '0')`. */
  function PadStart2(s: string): (r: string)
    ensures |s| >= 2 ==> r == s
    ensures |s| < 2 ==> |r| == 2
  {
    if |s| >= 2 then s else if |s| == 1 then "0" + s else "00"
  }

  /** `Math.trunc`, the rounding JavaScript's `%` uses. */
  function Trunc(x: real): int
  {
    if x >= 0.0 then x.Floor else -((-x).Floor)
  }

  /** JavaScript's `x % m`: the remainder takes the sign of `x`. */
  function JsRemainder(x: real, m: real): real
    requires m != 0.0
  {
    x - m * Trunc(x / m) as real
  }

  /** `formatTime(seconds)`. */
  function FormatTime(seconds: real): string
  {
    var mins := (seconds / 60.0).Floor;
    var secs := JsRemainder(seconds, 60.0).Floor;
    IntToString(mins) + ":" + PadStart2(IntToString(secs))
  }

  /** The value of a string of decimal digits. */
  function ParseNat(s: string): nat
    requires AllDigits(s)
  {
    if s == [] then 0 else ParseNat(s[..|s| - 1]) * 10 + DigitValue(s[|s| - 1])
  }

  /** Reads `M:SS` back as a number of whole seconds. */
  function ParseClock(s: string): Option<int>
  {
    if |s| >= 4 && s[|s| - 3] == ':' && AllDigits(s[..|s| - 3]) && AllDigits(s[|s| - 2..]) then
      Some(ParseNat(s[..|s| - 3]) * 60 + ParseNat(s[|s| - 2..]))
    else
      None
  }

  lemma {:induction false} ParseNatToString(n: nat)
    ensures ParseNat(NatToString(n)) == n
  {
    if n >= 10 {
      var s := NatToString(n);
      assert s[..|s| - 1] == NatToString(n / 10);
      ParseNatToString(n / 10);
    }
  }

  lemma FloorIs(x: real, q: int)
    requires q as real <= x < q as real + 1.0
    ensures x.Floor == q
  {
  }

  /** For a non-negative time the minutes and seconds are the quotient and
      remainder of the whole seconds by 60. */
  lemma FormatTimeParts(seconds: real)
    requires seconds >= 0.0
    ensures FormatTime(seconds) ==
      NatToString(seconds.Floor / 60) + ":" + PadStart2(NatToString(seconds.Floor % 60))
  {
    var n := seconds.Floor;
    var q, r := n / 60, n % 60;
    assert n == 60 * q + r && 0 <= r < 60;
    FloorIs(seconds / 60.0, q);
    assert Trunc(seconds / 60.0) == q;
    var rem := JsRemainder(seconds, 60.0);
    assert rem == seconds - 60.0 * q as real;
    FloorIs(rem, r);
  }

  /** The padded seconds field is two digits that read back as `r`. */
  lemma PaddedSeconds(r: nat)
    requires r < 60
    ensures |PadStart2(NatToString(r))| == 2
    ensures AllDigits(PadStart2(NatToString(r))) && ParseNat(PadStart2(NatToString(r))) == r
  {
    var ss := PadStart2(NatToString(r));
    ParseNatToString(r);
    if r < 10 {
      assert ss == ['0', Digit(r)];
      assert ss[..1] == ['0'];
    }
  }

  /** `ParseClock` splits at the third character from the end. */
  lemma ParseClockSplits(ms: string, ss: string)
    requires 1 <= |ms| && AllDigits(ms) && |ss| == 2 && AllDigits(ss)
    ensures ParseClock(ms + ":" + ss) == Some(ParseNat(ms) * 60 + ParseNat(ss))
  {
    var s := ms + ":" + ss;
    assert |s| == |ms| + 3 && s[|s| - 3] == ':';
    assert s[..|s| - 3] == ms;
    assert s[|s| - 2..] == ss;
  }

  /** Formatting a non-negative time and reading it back gives its whole seconds. */
  lemma FormatTimeRoundTrip(seconds: real)
    requires seconds >= 0.0
    ensures ParseClock(FormatTime(seconds)) == Some(seconds.Floor)
  {
    FormatTimeParts(seconds);
    var n := seconds.Floor;
    var m, r := n / 60, n % 60;
    PaddedSeconds(r);
    ParseNatToString(m);
    ParseClockSplits(NatToString(m), PadStart2(NatToString(r)));
  }
}
