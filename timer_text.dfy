/**
 * TimerTextPresenter: renders the remaining match time as mm:ss.
 * Time is a real number of seconds; the single-precision cast of the
 * source is not modelled.
 */
module TimerText {
  import opened Wrappers
  import opened Text

  /** The smallest integer not below `x`. */
  function Ceiling(x: real): (c: int)
    ensures (c - 1) as real < x <= c as real
  {
    -((-x).Floor)
  }

  /** The whole seconds shown: the remaining time clamped at zero, rounded up. */
  function WholeSeconds(secondsRemaining: real): (s: nat)
    ensures secondsRemaining <= 0.0 ==> s == 0
    ensures secondsRemaining > 0.0 ==> s >= 1 && (s - 1) as real < secondsRemaining <= s as real
  {
    var clamped := if secondsRemaining < 0.0 then 0.0 else secondsRemaining;
    Ceiling(clamped)
  }

  /** The text SetTime writes: minutes and seconds, each zero-padded to two digits. */
  function FormatTime(secondsRemaining: real): (t: string)
    ensures |t| >= 5 && t[|t| - 3] == ':'
    ensures WholeSeconds(secondsRemaining) < 6000 ==> |t| == 5
  {
    var s := WholeSeconds(secondsRemaining);
    PadTwoRoundTrip(s / 60);
    PadTwoRoundTrip(s % 60);
    PadTwo(s / 60) + ":" + PadTwo(s % 60)
  }

  /** Any time at or below zero renders as 00:00. */
  lemma FormatNonPositive(secondsRemaining: real)
    requires secondsRemaining <= 0.0
    ensures FormatTime(secondsRemaining) == "00:00"
  {
    assert WholeSeconds(secondsRemaining) == 0;
  }

  /**
   * The text is "<minutes>:<seconds>" with two-digit seconds below 60,
   * minutes of at least two digits, and reading it back gives the whole
   * seconds shown.
   */
  lemma FormatRoundTrip(secondsRemaining: real)
    ensures var t := FormatTime(secondsRemaining);
      && |t| >= 5
      && t[|t| - 3] == ':'
      && (forall i :: 0 <= i < |t| - 3 ==> IsDigit(t[i]))
      && (forall i :: |t| - 2 <= i < |t| ==> IsDigit(t[i]))
      && DigitsValue(t[|t| - 2..]) < 60
      && DigitsValue(t[..|t| - 3]) * 60 + DigitsValue(t[|t| - 2..]) == WholeSeconds(secondsRemaining)
  {
    var s := WholeSeconds(secondsRemaining);
    var m, r := s / 60, s % 60;
    PadTwoRoundTrip(m);
    PadTwoRoundTrip(r);
    var t := FormatTime(secondsRemaining);
    assert t == PadTwo(m) + ":" + PadTwo(r);
    assert t[..|t| - 3] == PadTwo(m);
    assert t[|t| - 2..] == PadTwo(r);
  }

  /** Any positive real time shows at least one second. */
  lemma FormatPositiveNotZero(secondsRemaining: real)
    requires secondsRemaining > 0.0
    ensures FormatTime(secondsRemaining) != "00:00"
  {
    FormatRoundTrip(secondsRemaining);
  }

  /** Sixty-five seconds show as one minute and five seconds. */
  lemma FormatSixtyFive()
    ensures FormatTime(65.0) == "01:05"
  {
    assert WholeSeconds(65.0) == 65;
  }

  /** The presenter: `timeText` is the text widget, None when none is assigned. */
  class TimerTextPresenter {
    var timeText: Option<string>

    constructor (timeText: Option<string>)
      ensures this.timeText == timeText
    {
      this.timeText := timeText;
    }

    /** SetTime: the widget, when assigned, shows the remaining time as mm:ss. */
    method SetTime(secondsRemaining: real)
      modifies this
      ensures old(timeText).None? ==> timeText.None?
      ensures old(timeText).Some? ==> timeText == Some(FormatTime(secondsRemaining))
    {
      if timeText.Some? {
        timeText := Some(FormatTime(secondsRemaining));
      }
    }
  }
}
