/** `convert_to_time_format`: a number of seconds as `HH:MM:SS`. */
module TimeFormat {
  import Decimal

  /** The hours, minutes and seconds of `divmod(total, 3600)` then `divmod(remainder, 60)`;
      Python's `divmod` by a positive number floors, as Dafny's `/` and `%` do. */
  datatype Clock = Clock(hours: int, minutes: int, seconds: int)

  function Split(total: int): (c: Clock)
    ensures c.hours * 3600 + c.minutes * 60 + c.seconds == total
    ensures 0 <= c.minutes < 60 && 0 <= c.seconds < 60
  {
    var rem := total % 3600;
    Clock(total / 3600, rem / 60, rem % 60)
  }

  /** Rounding to the nearest integer, ties to the even one. */
  function RoundHalfEven(x: real): (n: int)
    ensures n as real - x <= 0.5 && x - n as real <= 0.5
    ensures x - x.Floor as real < 0.5 ==> n == x.Floor
    ensures x - x.Floor as real > 0.5 ==> n == x.Floor + 1
    ensures x - x.Floor as real == 0.5 ==> n % 2 == 0
  {
    var f := x.Floor;
    var d := x - f as real;
    if d < 0.5 then f else if d > 0.5 then f + 1 else if f % 2 == 0 then f else f + 1
  }

  /** `timedelta(seconds=x)` keeps a whole number of microseconds, rounding half to even. */
  function Micros(seconds: real): int {
    RoundHalfEven(seconds * 1000000.0)
  }

  /** `int(td.total_seconds())`: the whole seconds of a microsecond count, truncated toward zero. */
  function WholeSeconds(us: int): (n: int)
    ensures 0 <= us ==> 0 <= n && n * 1000000 <= us < n * 1000000 + 1000000
    ensures us < 0 ==> n <= 0 && n * 1000000 - 1000000 < us <= n * 1000000
  {
    if us >= 0 then us / 1000000 else 0 - (0 - us) / 1000000
  }

  /** The formatted time: each field at least two characters wide, joined by colons; minutes
      and seconds always take exactly two. */
  function ConvertToTimeFormat(seconds: real): (r: string)
    ensures |r| >= 8 && r[|r| - 3] == ':' && r[|r| - 6] == ':'
  {
    var c := Split(WholeSeconds(Micros(seconds)));
    Pad2Width(c.minutes);
    Pad2Width(c.seconds);
    Decimal.Pad2(c.hours) + ":" + Decimal.Pad2(c.minutes) + ":" + Decimal.Pad2(c.seconds)
  }

  /** Below 99:59:59 and the half microsecond that rounds up to 100 hours, the result is exactly
      eight characters, `HH:MM:SS`. */
  lemma EightCharacters(seconds: real)
    requires 0.0 <= seconds < 360000.0 - 0.0000005
    ensures |ConvertToTimeFormat(seconds)| == 8
    ensures ConvertToTimeFormat(seconds)[2] == ':' && ConvertToTimeFormat(seconds)[5] == ':'
  {
    var us := Micros(seconds);
    assert 0 <= us < 360000000000 by {
      assert seconds * 1000000.0 < 359999999999.5;
      if seconds * 1000000.0 - (seconds * 1000000.0).Floor as real == 0.5 {
        assert (seconds * 1000000.0).Floor < 359999999999;
      }
    }
    var c := Split(WholeSeconds(us));
    Pad2Width(c.hours);
    Pad2Width(c.minutes);
    Pad2Width(c.seconds);
  }

  /** A field below 100 is written with exactly two digits. */
  lemma Pad2Width(n: int)
    requires 0 <= n < 100
    ensures |Decimal.Pad2(n)| == 2
  {
    if n >= 10 {
      assert Decimal.NatToStr(n) == Decimal.NatToStr(n / 10) + [Decimal.DigitChar(n % 10)];
    }
  }

  /** Fractions of a second are dropped once rounded to the microsecond: 59.9 seconds is still
      `00:00:59`. */
  lemma FractionsDropped(seconds: real, whole: int)
    requires 0 <= whole && whole as real <= seconds < whole as real + 1.0 - 0.0000005
    ensures ConvertToTimeFormat(seconds) == ConvertToTimeFormat(whole as real)
  {
    MicrosWithinSecond(seconds, whole);
    ExactMicros(whole);
    assert WholeSeconds(Micros(seconds)) == WholeSeconds(Micros(whole as real));
  }

  /** Within half a microsecond of the next second the count rounds up to it: 59.9999996
      seconds is `00:01:00`. */
  lemma NearlyWholeRoundsUp(seconds: real, whole: int)
    requires 0 <= whole && whole as real + 1.0 - 0.0000005 <= seconds < whole as real + 1.0
    ensures ConvertToTimeFormat(seconds) == ConvertToTimeFormat((whole + 1) as real)
  {
    MicrosRoundUp(seconds, whole);
    ExactMicros(whole + 1);
    assert WholeSeconds(Micros(seconds)) == WholeSeconds(Micros((whole + 1) as real));
  }

  lemma ExactMicros(n: int)
    ensures Micros(n as real) == n * 1000000
  {
    assert n as real * 1000000.0 == (n * 1000000) as real;
  }

  lemma MicrosWithinSecond(seconds: real, whole: int)
    requires 0 <= whole && whole as real <= seconds < whole as real + 1.0 - 0.0000005
    ensures WholeSeconds(Micros(seconds)) == whole
  {
    var x := seconds * 1000000.0;
    var lo := whole * 1000000;
    assert lo as real <= x < lo as real + 999999.5;
    if x - x.Floor as real == 0.5 {
      assert x.Floor < lo + 999999;
    }
    assert lo <= Micros(seconds) <= lo + 999999;
  }

  lemma MicrosRoundUp(seconds: real, whole: int)
    requires 0 <= whole && whole as real + 1.0 - 0.0000005 <= seconds < whole as real + 1.0
    ensures Micros(seconds) == whole * 1000000 + 1000000
  {
    var next := 2 * ((whole + 1) * 500000);
    assert next == whole * 1000000 + 1000000;
    assert next as real == whole as real * 1000000.0 + 1000000.0;
    RoundsUpToEven(seconds * 1000000.0, next);
  }

  /** A value in the half unit below an even integer rounds to it. */
  lemma RoundsUpToEven(x: real, n: int)
    requires n % 2 == 0 && n as real - 0.5 <= x < n as real
    ensures RoundHalfEven(x) == n
  {
    assert x.Floor == n - 1;
  }
}
