/** The `[MM:SS]` text both progress displays write for a number of elapsed
    seconds, and the truncation of a clock difference to whole seconds.
    Clock readings are `real` numbers of seconds; the rounding of floating
    point is not modelled.
 */
module TimeFormat {
  import opened Py

  /** `int(x)`: truncation toward zero. */
  function Trunc(x: real): int {
    if x >= 0.0 then x.Floor else -((-x).Floor)
  }

  /** `f"{n:02d}"` for any integer: a negative number keeps its sign and is
      already two characters wide. */
  function Pad2Int(n: int): string {
    if n < 0 then "-" + NatToString(-n) else Pad2(n)
  }

  /** `f"[{e // 60:02d}:{e % 60:02d}]"` (floor division, so the seconds are
      always in 0..59). */
  function Clock(e: int): string {
    "[" + Pad2Int(e / 60) + ":" + Pad2(e % 60) + "]"
  }

  // ------------------------------------------------------------ reading back

  function DigitValue(c: char): nat {
    if '0' <= c <= '9' then c as int - '0' as int else 0
  }

  /** The number a string of decimal digits stands for. */
  function DigitsValue(s: string): nat
    decreases |s|
  {
    if s == [] then 0 else DigitsValue(s[..|s| - 1]) * 10 + DigitValue(s[|s| - 1])
  }

  /** Reads `[MM:SS]` back as a number of seconds. */
  function ParseClock(s: string): Option<int> {
    if |s| < 2 || s[0] != '[' || s[|s| - 1] != ']' then None
    else
      var body := s[1..|s| - 1];
      var minutes := BeforeFirst(body, ':');
      if |minutes| == |body| then None  // no colon
      else Some(DigitsValue(minutes) * 60 + DigitsValue(AfterFirst(body, ':')))
  }

  // ------------------------------------------------------------ lemmas

  /** Truncation moves toward zero by less than a second. */
  lemma TruncBounds(x: real)
    ensures x >= 0.0 ==> 0 <= Trunc(x) && Trunc(x) as real <= x < Trunc(x) as real + 1.0
    ensures x < 0.0 ==> Trunc(x) <= 0 && Trunc(x) as real - 1.0 < x <= Trunc(x) as real
  {
  }

  lemma DigitRoundTrip(d: nat)
    requires d < 10
    ensures DigitValue(Digit(d)) == d && '0' <= Digit(d) <= '9'
  {
  }

  lemma {:induction false} NatToStringDigits(n: nat)
    ensures forall i :: 0 <= i < |NatToString(n)| ==> '0' <= NatToString(n)[i] <= '9'
    decreases n
  {
    DigitRoundTrip(n % 10);
    if n >= 10 {
      NatToStringDigits(n / 10);
    }
  }

  /** Decimal writing loses nothing. */
  lemma {:induction false} DigitsValueOfNat(n: nat)
    ensures DigitsValue(NatToString(n)) == n
    decreases n
  {
    DigitRoundTrip(n % 10);
    if n < 10 {
      assert NatToString(n)[..0] == [];
    } else {
      DigitsValueOfNat(n / 10);
      var s := NatToString(n);
      assert s[..|s| - 1] == NatToString(n / 10);
    }
  }

  /** A leading zero does not change the value. */
  lemma {:induction false} LeadingZero(s: string)
    ensures DigitsValue("0" + s) == DigitsValue(s)
    decreases |s|
  {
    if s != [] {
      assert ("0" + s)[..|"0" + s| - 1] == "0" + s[..|s| - 1];
      LeadingZero(s[..|s| - 1]);
    }
  }

  lemma Pad2Value(n: nat)
    ensures DigitsValue(Pad2(n)) == n
    ensures ':' !in Pad2(n)
  {
    DigitsValueOfNat(n);
    NatToStringDigits(n);
    if n < 10 {
      LeadingZero(NatToString(n));
    }
  }

  /** For a non-negative number of seconds the clock text reads back as that
      number: minutes and seconds are `e // 60` and `e % 60`. */
  lemma ClockRoundTrip(e: int)
    requires e >= 0
    ensures ParseClock(Clock(e)) == Some(e)
  {
    var mm := Pad2(e / 60);
    var ss := Pad2(e % 60);
    Pad2Value(e / 60);
    Pad2Value(e % 60);
    var s := Clock(e);
    assert s == "[" + mm + ":" + ss + "]";
    assert s[1..|s| - 1] == mm + [':'] + ss;
    ParseBracketed(mm, ss, s);
  }

  /** `[mm:ss]` reads back as its two numbers, when `mm` has no colon. */
  lemma ParseBracketed(mm: string, ss: string, s: string)
    requires ':' !in mm
    requires |s| >= 2 && s[0] == '[' && s[|s| - 1] == ']' && s[1..|s| - 1] == mm + [':'] + ss
    ensures ParseClock(s) == Some(DigitsValue(mm) * 60 + DigitsValue(ss))
  {
    BeforeFirstSep(mm, ':', ss);
  }

  /** Under 100 minutes the text is exactly seven characters wide. */
  lemma ClockWidth(e: int)
    requires 0 <= e < 6000
    ensures |Clock(e)| == 7
  {
  }
}
