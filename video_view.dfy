/** `formatTime` of SAM2-Demo/Views/VideoView.swift: a duration in seconds
    shown as `HH:MM:SS`. `Int(_:)` truncates toward zero, and so do Swift's
    `/` and `%` on integers. */
module VideoView {
  import opened Wrappers
  import opened Text
  import opened Arithmetic

  /** `Int(x)`: the integer part of `x`, rounded toward zero. */
  function TruncateToInt(x: real): (r: int)
    ensures x >= 0.0 ==> 0 <= r && r as real <= x < r as real + 1.0
    ensures x < 0.0 ==> r <= 0 && r as real - 1.0 < x <= r as real
  {
    if x >= 0.0 then x.Floor else -((-x).Floor)
  }

  /** Swift's `a / b` for a positive divisor: the quotient rounded toward
      zero. */
  function SwiftDiv(a: int, b: int): int
    requires b > 0
  {
    if a >= 0 then a / b else -((-a) / b)
  }

  /** Swift's `a % b` for a positive divisor: the remainder takes the sign
      of `a`. */
  function SwiftRem(a: int, b: int): (r: int)
    requires b > 0
    ensures a >= 0 ==> 0 <= r < b
    ensures a < 0 ==> -b < r <= 0
  {
    if a >= 0 then a % b else -((-a) % b)
  }

  /** The two operators agree: quotient times divisor plus remainder is the
      dividend, whatever its sign. */
  lemma SwiftDivRem(a: int, b: int)
    requires b > 0
    ensures SwiftDiv(a, b) * b + SwiftRem(a, b) == a
  {
    if a < 0 {
      assert (-a) / b * b + (-a) % b == -a;
    }
  }

  datatype Clock = Clock(hours: int, minutes: int, seconds: int)

  /** The three numbers `formatTime` prints. */
  function ClockOf(totalSeconds: real): Clock {
    var t := TruncateToInt(totalSeconds);
    Clock(SwiftDiv(t, 3600), SwiftDiv(SwiftRem(t, 3600), 60), SwiftRem(t, 60))
  }

  /** `String(format: "%02d:%02d:%02d", hours, minutes, seconds)`. */
  function FormatTime(totalSeconds: real): (text: string)
    ensures |text| >= 8
  {
    var c := ClockOf(totalSeconds);
    ZeroPad2(c.hours) + ":" + ZeroPad2(c.minutes) + ":" + ZeroPad2(c.seconds)
  }

  /** For a non-negative count of seconds the fields are hours, minutes
      below 60 and seconds below 60 that add up to the count. */
  lemma ClockOfNonNegative(t: int)
    requires t >= 0
    ensures var h, m, s := SwiftDiv(t, 3600), SwiftDiv(SwiftRem(t, 3600), 60), SwiftRem(t, 60);
      && h * 3600 + m * 60 + s == t
      && 0 <= h && 0 <= m < 60 && 0 <= s < 60
  {
    var h, r := t / 3600, t % 3600;
    var m, s := r / 60, r % 60;
    assert t == (60 * h + m) * 60 + s;
    DivModUnique(t, 60, 60 * h + m, s);
  }

  /** The fields of a negative count are those of its magnitude, negated. */
  lemma ClockOfNegative(t: int)
    requires t < 0
    ensures SwiftDiv(t, 3600) == -SwiftDiv(-t, 3600)
    ensures SwiftDiv(SwiftRem(t, 3600), 60) == -SwiftDiv(SwiftRem(-t, 3600), 60)
    ensures SwiftRem(t, 60) == -SwiftRem(-t, 60)
  {
  }

  /** Hours, minutes and seconds add up to the truncated duration; for a
      non-negative duration minutes and seconds are below 60, for a
      negative one all three fields are zero or negative. */
  lemma ClockAddsUp(totalSeconds: real)
    ensures var c, t := ClockOf(totalSeconds), TruncateToInt(totalSeconds);
      && c.hours * 3600 + c.minutes * 60 + c.seconds == t
      && (t >= 0 ==> 0 <= c.hours && 0 <= c.minutes < 60 && 0 <= c.seconds < 60)
      && (t < 0 ==> c.hours <= 0 && -60 < c.minutes <= 0 && -60 < c.seconds <= 0)
  {
    var t := TruncateToInt(totalSeconds);
    if t >= 0 {
      ClockOfNonNegative(t);
    } else {
      ClockOfNonNegative(-t);
      ClockOfNegative(t);
    }
  }

  /** Reads `HH:MM:SS` back into a number of seconds. */
  function ReadClock(s: string): Option<int> {
    if |s| == 8 && s[2] == ':' && s[5] == ':'
       && AllDigits(s[0..2]) && AllDigits(s[3..5]) && AllDigits(s[6..8])
    then Some(DigitsValue(s[0..2]) * 3600 + DigitsValue(s[3..5]) * 60 + DigitsValue(s[6..8]))
    else None
  }

  /** Below 100 hours the text is exactly eight characters and reads back
      as the truncated duration. */
  lemma FormatTimeRoundTrip(totalSeconds: real)
    requires 0.0 <= totalSeconds < 360000.0
    ensures |FormatTime(totalSeconds)| == 8
    ensures ReadClock(FormatTime(totalSeconds)) == Some(TruncateToInt(totalSeconds))
  {
    var c := ClockOf(totalSeconds);
    ClockAddsUp(totalSeconds);
    var a, b, d := ZeroPad2(c.hours), ZeroPad2(c.minutes), ZeroPad2(c.seconds);
    var f := a + ":" + b + ":" + d;
    assert f[0..2] == a && f[2] == ':' && f[3..5] == b && f[5] == ':' && f[6..8] == d;
  }

  /** From 100 hours on the hour field grows past two digits. */
  lemma LongDurationsWiden(totalSeconds: real)
    requires totalSeconds >= 360000.0
    ensures |FormatTime(totalSeconds)| > 8
  {
    ClockAddsUp(totalSeconds);
  }

  /** Less than a minute before zero only the seconds carry the sign:
      `00:00:-SS`. */
  lemma ShortNegativeDuration(totalSeconds: real)
    requires -60.0 < totalSeconds <= -1.0
    ensures var f := FormatTime(totalSeconds); |f| >= 7 && f[..7] == "00:00:-"
  {
    var t := TruncateToInt(totalSeconds);
    assert -60 < t < 0;
    ClockOfNegative(t);
    var c := ClockOf(totalSeconds);
    assert c.hours == 0 && c.minutes == 0 && c.seconds == t;
    assert ZeroPad2(0) == "00";
  }
}
