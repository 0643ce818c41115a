/**
 * The `MM:SS` clock text of js/utils.js: `formatTime` pads a field below ten
 * with one "0", and `toMinAndSec` splits a duration in seconds into whole
 * minutes and the whole seconds left over.
 */
module TimeFormat {
  import opened Options
  import opened Numerals

  /**
   * formatTime: "0" before the text of a number below ten, the number itself
   * otherwise (which the template string of toMinAndSec turns into its text).
   */
  function FormatTime(t: nat): (r: string)
    ensures AllDigits(r) && |r| >= 2
    ensures r[0] == '0' <==> t < 10
  {
    if t < 10 then "0" + NatToString(t) else NatToString(t)
  }

  /** The minutes field of toMinAndSec: Math.floor(d / 60), the whole minutes in the whole seconds. */
  function Minutes(d: real): (m: int)
    ensures 60 * m <= d.Floor < 60 * m + 60
  {
    var m := (d / 60.0).Floor;
    assert (60 * m) as real <= d < (60 * m + 60) as real;
    m
  }

  /**
   * The seconds field of toMinAndSec: Math.floor(d - minutes * 60). In the
   * source `minutes` may already be the padded text "0X"; the multiplication
   * coerces it back to the number X, which is the value used here.
   */
  function Seconds(d: real): (s: int)
    ensures s == d.Floor - 60 * Minutes(d)
    ensures 0 <= s < 60
  {
    var m := Minutes(d);
    var s := (d - m as real * 60.0).Floor;
    assert (d.Floor - 60 * m) as real <= d - m as real * 60.0 < (d.Floor - 60 * m + 1) as real;
    s
  }

  /** Both fields are the quotient and remainder of the whole seconds by 60. */
  lemma Fields(d: real)
    requires d >= 0.0
    ensures Minutes(d) == d.Floor / 60 && Seconds(d) == d.Floor % 60
    ensures 0 <= Minutes(d) && 0 <= Seconds(d) < 60
    ensures 60 * Minutes(d) + Seconds(d) == d.Floor
  {
  }

  /** toMinAndSec for a duration that is not negative. */
  function ToMinAndSec(d: real): (r: string)
    requires d >= 0.0
    ensures |r| >= 5 && r[|r| - 3] == ':'
    ensures AllDigits(r[..|r| - 3]) && AllDigits(r[|r| - 2..])
  {
    Fields(d);
    var mm, ss := FormatTime(Minutes(d) as nat), FormatTime(Seconds(d) as nat);
    FormatTimeField(Seconds(d) as nat);
    var r := mm + ":" + ss;
    assert r[..|r| - 3] == mm && r[|r| - 2..] == ss;
    r
  }

  /**
   * A field is a digit string of at least two digits that reads back as its
   * number; it starts with '0' exactly when the number is below ten, and it
   * has exactly two digits exactly when the number is below 100.
   */
  lemma FormatTimeField(t: nat)
    ensures AllDigits(FormatTime(t)) && |FormatTime(t)| >= 2
    ensures ParseNat(FormatTime(t)) == t
    ensures FormatTime(t)[0] == '0' <==> t < 10
    ensures |FormatTime(t)| == 2 <==> t < 100
  {
    ParseNatToString(t);
    NatToStringLength(t, 1);
    NatToStringLength(t, 2);
    assert Pow10(2) == 100;
    if t < 10 {
      ParseLeadingZero(NatToString(t));
    }
  }

  /** The clock text depends on the whole seconds only: minutes, ':', two-digit seconds. */
  lemma ToMinAndSecShape(d: real)
    requires d >= 0.0
    ensures ToMinAndSec(d) == FormatTime(d.Floor / 60) + ":" + FormatTime(d.Floor % 60)
    ensures |FormatTime(d.Floor % 60)| == 2
    ensures |FormatTime(d.Floor / 60)| >= 3 <==> d >= 6000.0
  {
    Fields(d);
    FormatTimeField(d.Floor / 60);
    FormatTimeField(d.Floor % 60);
  }

  /** Minutes and seconds of a clock text. */
  datatype Clock = Clock(minutes: nat, seconds: nat)

  /** Reads "M...M:SS": one or more minute digits, a colon, two second digits. */
  function ParseClock(s: string): Option<Clock> {
    if |s| >= 4 && s[|s| - 3] == ':' && AllDigits(s[..|s| - 3]) && AllDigits(s[|s| - 2..]) then
      Some(Clock(ParseNat(s[..|s| - 3]), ParseNat(s[|s| - 2..])))
    else
      None
  }

  /**
   * Round trip: the clock text reads back as m minutes and s seconds with
   * s < 60 and 60 * m + s the whole seconds of the duration.
   */
  lemma ToMinAndSecRoundTrip(d: real)
    requires d >= 0.0
    ensures ParseClock(ToMinAndSec(d)).Some?
    ensures var c := ParseClock(ToMinAndSec(d)).value;
      c.seconds < 60 && 60 * c.minutes + c.seconds == d.Floor
  {
    Fields(d);
    var mm, ss := FormatTime(Minutes(d) as nat), FormatTime(Seconds(d) as nat);
    FormatTimeField(Minutes(d) as nat);
    FormatTimeField(Seconds(d) as nat);
    var s := ToMinAndSec(d);
    assert s == mm + ":" + ss;
    assert s[..|s| - 3] == mm;
    assert s[|s| - 2..] == ss;
  }

  /** Two durations show the same text exactly when they have the same whole seconds. */
  lemma ToMinAndSecSameText(d1: real, d2: real)
    requires d1 >= 0.0 && d2 >= 0.0
    ensures ToMinAndSec(d1) == ToMinAndSec(d2) <==> d1.Floor == d2.Floor
  {
    ToMinAndSecShape(d1);
    ToMinAndSecShape(d2);
    ToMinAndSecRoundTrip(d1);
    ToMinAndSecRoundTrip(d2);
  }

  lemma Examples()
    ensures ToMinAndSec(65.0) == "01:05"
    ensures ToMinAndSec(9.0) == "00:09"
    ensures ToMinAndSec(600.0) == "10:00"
    ensures ToMinAndSec(6000.5) == "100:00"
  {
    Fields(65.0);
    Fields(9.0);
    Fields(600.0);
    Fields(6000.5);
  }
}
