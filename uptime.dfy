/**
 * The uptime display (updateUptime): the elapsed milliseconds since page
 * load, split into hours, minutes and seconds and rendered as
 * "{hours}h {minutes}m {seconds}s". The clock is a parameter.
 */
module Uptime {

  const MillisPerSecond: nat := 1000
  const MillisPerMinute: nat := 60000
  const MillisPerHour: nat := 3600000

  /** Math.floor(a / b) for a positive divisor; Dafny's `/` floors there. */
  function FloorDiv(a: int, b: nat): (q: int)
    requires b > 0
    ensures q * b <= a < q * b + b
  {
    a / b
  }

  /**
   * JavaScript's `%`, whose result takes the sign of the dividend
   * (Dafny's `%` never returns a negative value).
   */
  function JsRem(a: int, b: nat): (r: int)
    requires b > 0
    ensures a >= 0 ==> r == a % b
    ensures a < 0 ==> -(b as int) < r <= 0
    ensures a < 0 ==> a == -((-a) / (b as int)) * (b as int) + r
  {
    if a >= 0 then a % b
    else
      var n := -a;
      assert n == (n / (b as int)) * (b as int) + n % (b as int);
      -(n % b)
  }

  datatype Duration = Duration(hours: int, minutes: int, seconds: int)

  /**
   * The three fields that updateUptime computes from `elapsed`; for a
   * non-negative elapsed time all three are non-negative and minutes and
   * seconds stay below 60.
   */
  function Split(elapsed: int): (d: Duration)
    ensures elapsed >= 0 ==>
      d.hours >= 0 && 0 <= d.minutes < 60 && 0 <= d.seconds < 60
  {
    Duration(
      FloorDiv(elapsed, MillisPerHour),
      JsRem(FloorDiv(elapsed, MillisPerMinute), 60),
      JsRem(FloorDiv(elapsed, MillisPerSecond), 60))
  }

  /**
   * For a non-negative elapsed time: seconds and minutes lie in [0, 60),
   * hours are elapsed div 3600000 with no day roll-over, and the three
   * fields recombine to the elapsed time up to the dropped milliseconds.
   */
  lemma SplitBounds(elapsed: int)
    requires elapsed >= 0
    ensures var d := Split(elapsed);
      && 0 <= d.seconds < 60 && 0 <= d.minutes < 60
      && d.hours == elapsed / MillisPerHour && d.hours >= 0
      && d.hours * MillisPerHour + d.minutes * MillisPerMinute + d.seconds * MillisPerSecond <= elapsed
      && elapsed < d.hours * MillisPerHour + d.minutes * MillisPerMinute + d.seconds * MillisPerSecond + MillisPerSecond
  {
    var d := Split(elapsed);
    var s := elapsed / 1000;
    var m := elapsed / 60000;
    var h := elapsed / 3600000;
    assert m == s / 60;
    assert h == m / 60;
    assert d.seconds == s - m * 60;
    assert d.minutes == m - h * 60;
    assert d.hours * 3600000 + d.minutes * 60000 + d.seconds * 1000 == s * 1000;
  }

  /** The string for one decimal digit value. */
  function DigitChar(d: nat): (c: char)
    requires d < 10
    ensures '0' <= c <= '9'
  {
    "0123456789"[d]
  }

  function DigitValue(c: char): nat
    requires '0' <= c <= '9'
  {
    (c as int - '0' as int) as nat
  }

  /** The decimal rendering of a natural number, without leading zeros. */
  function ShowNat(n: nat): (s: string)
    ensures |s| >= 1
    ensures forall i :: 0 <= i < |s| ==> '0' <= s[i] <= '9'
    ensures n > 0 ==> s[0] != '0'
  {
    if n < 10 then [DigitChar(n)] else ShowNat(n / 10) + [DigitChar(n % 10)]
  }

  /** The value of a string of decimal digits. */
  function ParseNat(s: string): nat
    requires forall i :: 0 <= i < |s| ==> '0' <= s[i] <= '9'
  {
    if s == [] then 0 else ParseNat(s[..|s| - 1]) * 10 + DigitValue(s[|s| - 1])
  }

  /** Reading back the digits written by ShowNat gives the number. */
  lemma {:induction false} ShowNatRoundTrip(n: nat)
    ensures ParseNat(ShowNat(n)) == n
  {
    var s := ShowNat(n);
    if n < 10 {
      assert s[..0] == [];
      assert DigitValue(DigitChar(n)) == n;
    } else {
      ShowNatRoundTrip(n / 10);
      assert s[..|s| - 1] == ShowNat(n / 10);
      assert DigitValue(DigitChar(n % 10)) == n % 10;
    }
  }

  /**
   * JavaScript's String(n) for an integer: a minus sign exactly for a
   * negative number, then the digits of its magnitude.
   */
  function ShowInt(n: int): (s: string)
    ensures |s| >= 1
    ensures (s[0] == '-') <==> n < 0
    ensures n < 0 ==> s[1..] == ShowNat(-n)
    ensures n >= 0 ==> s == ShowNat(n)
  {
    if n < 0 then "-" + ShowNat(-n) else ShowNat(n)
  }

  /** The template `${hours}h ${minutes}m ${seconds}s`. */
  function Format(d: Duration): (text: string)
    ensures |text| >= 8 && text[|text| - 1] == 's'
  {
    ShowInt(d.hours) + "h " + ShowInt(d.minutes) + "m " + ShowInt(d.seconds) + "s"
  }

  /**
   * Two digit strings each followed by the same non-digit marker can only
   * produce the same text when the digit strings, and what follows the
   * marker, agree.
   */
  lemma SplitAtMarker(p1: string, x1: string, p2: string, x2: string, c: char)
    requires forall i :: 0 <= i < |p1| ==> '0' <= p1[i] <= '9'
    requires forall i :: 0 <= i < |p2| ==> '0' <= p2[i] <= '9'
    requires !('0' <= c <= '9')
    requires p1 + [c] + x1 == p2 + [c] + x2
    ensures p1 == p2 && x1 == x2
  {
    var s := p1 + [c] + x1;
    assert s[|p1|] == c;
    assert s[|p2|] == c;
    assert |p1| == |p2|;
    assert p1 == s[..|p1|] == p2;
    assert x1 == s[|p1| + 1..] == x2;
  }

  /** The text after the hours marker: a space, the minutes, "m ", the seconds, "s". */
  lemma TextAfterHours(h: string, m: string, sec: string)
    ensures h + "h " + m + "m " + sec + "s" == h + ['h'] + (" " + m + "m " + sec + "s")
    ensures (" " + m + "m " + sec + "s")[1..] == m + ['m'] + (" " + sec + "s")
    ensures (" " + sec + "s")[1..] == sec + ['s'] + []
  {
  }

  /**
   * For non-negative fields the uptime text determines the duration: the
   * hours, minutes and seconds can be read back from what is shown.
   */
  lemma FormatDeterminesDuration(d1: Duration, d2: Duration)
    requires d1.hours >= 0 && d1.minutes >= 0 && d1.seconds >= 0
    requires d2.hours >= 0 && d2.minutes >= 0 && d2.seconds >= 0
    requires Format(d1) == Format(d2)
    ensures d1 == d2
  {
    var h1, m1, s1 := ShowNat(d1.hours), ShowNat(d1.minutes), ShowNat(d1.seconds);
    var h2, m2, s2 := ShowNat(d2.hours), ShowNat(d2.minutes), ShowNat(d2.seconds);
    var r1, r2 := " " + m1 + "m " + s1 + "s", " " + m2 + "m " + s2 + "s";
    var t1, t2 := " " + s1 + "s", " " + s2 + "s";
    TextAfterHours(h1, m1, s1);
    TextAfterHours(h2, m2, s2);
    SplitAtMarker(h1, r1, h2, r2, 'h');
    SplitAtMarker(m1, t1, m2, t2, 'm');
    SplitAtMarker(s1, [], s2, [], 's');
    ShowNatRoundTrip(d1.hours);
    ShowNatRoundTrip(d2.hours);
    ShowNatRoundTrip(d1.minutes);
    ShowNatRoundTrip(d2.minutes);
    ShowNatRoundTrip(d1.seconds);
    ShowNatRoundTrip(d2.seconds);
  }

  /**
   * The uptime text shown for `elapsed` milliseconds: for a non-negative
   * elapsed time it is the rendering of hours, minutes below 60 and seconds
   * below 60 that recombine to the elapsed time up to the dropped
   * milliseconds.
   */
  function UptimeText(elapsed: int): (text: string)
    ensures elapsed >= 0 ==> exists d: Duration ::
      && text == Format(d)
      && d.hours >= 0 && 0 <= d.minutes < 60 && 0 <= d.seconds < 60
      && d.hours * MillisPerHour + d.minutes * MillisPerMinute + d.seconds * MillisPerSecond <= elapsed
      && elapsed < d.hours * MillisPerHour + d.minutes * MillisPerMinute + d.seconds * MillisPerSecond + MillisPerSecond
  {
    var d := Split(elapsed);
    assert elapsed >= 0 ==>
      d.hours * MillisPerHour + d.minutes * MillisPerMinute + d.seconds * MillisPerSecond <= elapsed <
      d.hours * MillisPerHour + d.minutes * MillisPerMinute + d.seconds * MillisPerSecond + MillisPerSecond
    by {
      if elapsed >= 0 {
        SplitBounds(elapsed);
      }
    }
    Format(d)
  }

  /** 3661000 ms is one hour, one minute and one second. */
  lemma UptimeOneHourOneMinuteOneSecond()
    ensures Split(3661000) == Duration(1, 1, 1)
    ensures UptimeText(3661000) == "1h 1m 1s"
  {
  }

  /** 59000 ms shows no hours and no minutes. */
  lemma UptimeFiftyNineSeconds()
    ensures Split(59000) == Duration(0, 0, 59)
    ensures UptimeText(59000) == "0h 0m 59s"
  {
    var d := Split(59000);
    assert d == Duration(0, 0, 59);
    assert ShowInt(59) == "59" by {
      assert ShowNat(59) == ShowNat(5) + [DigitChar(9)];
    }
    assert ShowInt(0) == "0";
    assert UptimeText(59000) == Format(d);
  }

  /** Hours are not reduced modulo 24: 90000000 ms is 25 hours. */
  lemma UptimeTwentyFiveHours()
    ensures Split(90000000) == Duration(25, 0, 0)
    ensures UptimeText(90000000) == "25h 0m 0s"
  {
    var d := Split(90000000);
    assert d == Duration(25, 0, 0);
    assert ShowInt(25) == "25" by {
      assert ShowNat(25) == ShowNat(2) + [DigitChar(5)];
    }
    assert ShowInt(0) == "0";
    assert UptimeText(90000000) == Format(d);
  }

  /**
   * A clock that moved back (negative elapsed time) shows negative fields:
   * one second before the start reads "-1h -1m -1s".
   */
  lemma UptimeBeforeStart()
    ensures Split(-1000) == Duration(-1, -1, -1)
    ensures UptimeText(-1000) == "-1h -1m -1s"
  {
  }
}
