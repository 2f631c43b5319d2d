/** The playhead: its position as a percentage of the slide, and the time read-out. */
module TimelinePlayhead {
  import opened JsPrelude

  /** `Math.min((currentTime / maxTime) * 100, 100)`: capped above only. */
  function ProgressPercent(currentTime: real, maxTime: real): (p: real)
    requires maxTime > 0.0
    ensures p <= 100.0
    ensures currentTime <= maxTime ==> p * maxTime == currentTime * 100.0
    ensures currentTime >= maxTime ==> p == 100.0
    ensures currentTime < 0.0 ==> p < 0.0
  {
    Min((currentTime / maxTime) * 100.0, 100.0)
  }

  /** JavaScript `%` on integers: the remainder takes the sign of the dividend. */
  function IntRem(a: int, b: int): (r: int)
    requires b > 0
    ensures a >= 0 ==> r == a % b
    ensures -b < r < b
  {
    if a >= 0 then a % b else -((-a) % b)
  }

  /** `String(n).padStart(2, '0')`. */
  function PadTwo(s: string): (r: string)
    ensures |s| >= 2 ==> r == s
    ensures |s| < 2 ==> |r| == 2 && r[2 - |s|..] == s
  {
    if |s| >= 2 then s else if |s| == 1 then "0" + s else "00"
  }

  /** The three numbers `formatTime` prints. */
  datatype TimeParts = TimeParts(minutes: int, seconds: int, tenths: int)

  function Parts(ms: real): TimeParts
  {
    var totalSeconds := FloorOf(ms / 1000.0);
    TimeParts(totalSeconds / 60, IntRem(totalSeconds, 60), FloorOf(JsRem(ms, 1000.0) / 100.0))
  }

  /** `formatTime`: "M:SS.D" from one minute on, "S.Ds" below it. */
  function FormatTime(ms: real): string
  {
    var p := Parts(ms);
    if p.minutes > 0 then
      IntToString(p.minutes) + ":" + PadTwo(IntToString(p.seconds)) + "." + IntToString(p.tenths)
    else IntToString(p.seconds) + "." + IntToString(p.tenths) + "s"
  }

  /**
   * For a non-negative time the tenths digit is 0..9 and the seconds 0..59,
   * and the printed minutes, seconds and tenths reconstruct the time to
   * within the 100 ms it truncates.
   */
  lemma PartsBounds(ms: real)
    requires ms >= 0.0
    ensures var p := Parts(ms);
      0 <= p.tenths <= 9 && 0 <= p.seconds <= 59 && p.minutes >= 0
      && (p.minutes * 60000 + p.seconds * 1000 + p.tenths * 100) as real <= ms
      && ms < (p.minutes * 60000 + p.seconds * 1000 + p.tenths * 100 + 100) as real
      && (ms < 60000.0 ==> p.minutes == 0)
      && (ms >= 60000.0 ==> p.minutes >= 1)
  {
    var s := FloorOf(ms / 1000.0);
    assert s >= 0;
    assert (s * 1000) as real <= ms < (s * 1000 + 1000) as real by {
      assert s as real <= ms / 1000.0 < s as real + 1.0;
    }
    var r := JsRem(ms, 1000.0);
    assert Trunc(ms / 1000.0) == s;
    assert r == ms - (s * 1000) as real;
    assert 0.0 <= r < 1000.0;
    var t := FloorOf(r / 100.0);
    assert t as real <= r / 100.0 < t as real + 1.0;
    assert (t * 100) as real <= r < (t * 100 + 100) as real;
    assert s == (s / 60) * 60 + s % 60;
    if ms >= 60000.0 {
      assert ms / 1000.0 >= 60.0;
    }
  }

  /** Below one minute the read-out is "<seconds>.<tenths>s". */
  lemma ShortFormat(ms: real)
    requires 0.0 <= ms < 60000.0
    ensures var p := Parts(ms);
      FormatTime(ms) == NatToString(p.seconds) + "." + [DigitChar(p.tenths)] + "s"
      && p.seconds == FloorOf(ms / 1000.0)
  {
    PartsBounds(ms);
    var s := FloorOf(ms / 1000.0);
    assert s < 60 by {
      assert ms / 1000.0 < 60.0;
    }
  }

  /** From one minute on the read-out is "<minutes>:<two-digit seconds>.<tenths>", with no unit. */
  lemma LongFormat(ms: real)
    requires ms >= 60000.0
    ensures var p := Parts(ms);
      FormatTime(ms) == NatToString(p.minutes) + ":" + PadTwo(NatToString(p.seconds)) + "." + [DigitChar(p.tenths)]
      && |PadTwo(NatToString(p.seconds))| == 2
  {
    PartsBounds(ms);
    var p := Parts(ms);
    if p.seconds >= 10 {
      assert NatToString(p.seconds) == NatToString(p.seconds / 10) + [DigitChar(p.seconds % 10)];
    }
  }

  /** Two read-outs checked by hand: 1500 ms and 65300 ms. */
  lemma FormatExamples(a: real, b: real)
    requires a == 1500.0 && b == 65300.0
    ensures FormatTime(a) == "1.5s"
    ensures FormatTime(b) == "1:05.3"
  {
    assert Parts(a) == TimeParts(0, 1, 5) by {
      assert FloorOf(a / 1000.0) == 1;
      assert JsRem(a, 1000.0) == 500.0;
      assert FloorOf(500.0 / 100.0) == 5;
    }
    assert Parts(b) == TimeParts(1, 5, 3) by {
      assert FloorOf(b / 1000.0) == 65;
      assert JsRem(b, 1000.0) == 300.0;
      assert FloorOf(300.0 / 100.0) == 3;
    }
  }
}
