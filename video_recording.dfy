/**
 * The video recorder's elapsed-time display: the `m:ss` formatter and the
 * once-a-second counter behind it. Camera access, the media recorder and
 * the upload are not part of this model.
 */
module VideoRecording {
  import opened Wrappers
  import Strings
  import Numbers

  /** `padStart(width, fill)`: `fill` is repeated in front until the text
      is `width` long; longer text is left as it is. */
  function PadStart(s: string, width: nat, fill: char): (r: string)
    ensures |s| >= width ==> r == s
    ensures |s| < width ==> |r| == width
    ensures r[|r| - |s|..] == s
    ensures forall i :: 0 <= i < |r| - |s| ==> r[i] == fill
  {
    if |s| >= width then s else Repeat(fill, width - |s|) + s
  }

  /** `n` copies of `c`. */
  function Repeat(c: char, n: nat): (r: string)
    ensures |r| == n
    ensures forall i :: 0 <= i < n ==> r[i] == c
  {
    if n == 0 then [] else [c] + Repeat(c, n - 1)
  }

  /** `formatTime`: whole minutes, a colon, and the remaining seconds as two
      digits. */
  function FormatTime(seconds: nat): string
  {
    Numbers.NatToString(seconds / 60) + ":" + PadStart(Numbers.NatToString(seconds % 60), 2, '0')
  }

  /** The seconds part: exactly two digits with the value of `s`, the
      first a '0' exactly when `s` is below 10. */
  lemma TwoDigitSeconds(s: nat)
    requires s < 60
    ensures var secs := PadStart(Numbers.NatToString(s), 2, '0');
            |secs| == 2 && Numbers.AllDigits(secs) && Numbers.DigitsValue(secs) == s &&
            (secs[0] == '0' <==> s < 10)
  {
    if s < 10 {
      OneDigit(s);
      assert PadStart([Numbers.DigitChar(s)], 2, '0') == ['0', Numbers.DigitChar(s)];
      TwoDigitsValue('0', Numbers.DigitChar(s));
    } else {
      TwoDigits(s);
      TwoDigitsValue(Numbers.DigitChar(s / 10), Numbers.DigitChar(s % 10));
    }
  }

  /** A number below 10 is written as its one digit. */
  lemma OneDigit(s: nat)
    requires s < 10
    ensures Numbers.NatToString(s) == [Numbers.DigitChar(s)]
  {
  }

  /** A number from 10 to 99 is written as its tens and its units digit. */
  lemma TwoDigits(s: nat)
    requires 10 <= s < 100
    ensures Numbers.NatToString(s) == [Numbers.DigitChar(s / 10), Numbers.DigitChar(s % 10)]
  {
    OneDigit(s / 10);
  }

  /** The value of a two-digit string. */
  lemma TwoDigitsValue(a: char, b: char)
    requires Numbers.IsDigit(a) && Numbers.IsDigit(b)
    ensures Numbers.DigitsValue([a, b]) == Numbers.DigitValue(a) * 10 + Numbers.DigitValue(b)
  {
    assert [a, b][..1] == [a];
    assert [a][..0] == [];
  }

  /** The shape of the display: minutes without leading zeros, a colon, and
      exactly two digits of seconds below 60 (a leading '0' below 10). */
  lemma FormatTimeShape(seconds: nat)
    ensures var mins, secs := Numbers.NatToString(seconds / 60), PadStart(Numbers.NatToString(seconds % 60), 2, '0');
            FormatTime(seconds) == mins + ":" + secs &&
            Numbers.DigitsValue(mins) == seconds / 60 &&
            |secs| == 2 && Numbers.AllDigits(secs) && Numbers.DigitsValue(secs) == seconds % 60 &&
            (secs[0] == '0' <==> seconds % 60 < 10)
  {
    Numbers.NatToStringValue(seconds / 60);
    TwoDigitSeconds(seconds % 60);
  }

  /** Reading an `m:ss` display back: the minutes and seconds around the one
      colon; `None` for anything else. */
  function ParseTime(t: string): (r: Option<nat>)
  {
    ReadParts(Strings.Split(t, ':'))
  }

  /** The value of the colon-separated parts: exactly two, non-empty digit
      minutes and exactly two digits of seconds. */
  function ReadParts(parts: seq<string>): (r: Option<nat>)
  {
    if |parts| == 2 && parts[0] != [] && |parts[1]| == 2 &&
       Numbers.AllDigits(parts[0]) && Numbers.AllDigits(parts[1])
    then Some(Numbers.DigitsValue(parts[0]) * 60 + Numbers.DigitsValue(parts[1]))
    else None
  }

  /** Minutes, a colon and two digits read back as minutes times 60 plus
      the seconds. */
  lemma ParseTimeOf(mins: string, secs: string)
    requires mins != [] && Numbers.AllDigits(mins)
    requires |secs| == 2 && Numbers.AllDigits(secs)
    ensures ParseTime(mins + ":" + secs) == Some(Numbers.DigitsValue(mins) * 60 + Numbers.DigitsValue(secs))
  {
    NoColonInDigits(mins);
    NoColonInDigits(secs);
    var t := mins + ":" + secs;
    assert t == mins + [':'] + secs;
    Strings.SplitTwo(mins, ':', secs);
    ReadTwoParts(mins, secs);
  }

  lemma ReadTwoParts(mins: string, secs: string)
    requires mins != [] && Numbers.AllDigits(mins)
    requires |secs| == 2 && Numbers.AllDigits(secs)
    ensures ReadParts([mins, secs]) == Some(Numbers.DigitsValue(mins) * 60 + Numbers.DigitsValue(secs))
  {
  }

  /** Digits never contain the separator. */
  lemma NoColonInDigits(s: string)
    requires Numbers.AllDigits(s)
    ensures ':' !in s
  {
  }

  /** Round trip: minutes times 60 plus seconds is the input, so no two
      durations share a display. */
  lemma ParseFormatTime(seconds: nat)
    ensures ParseTime(FormatTime(seconds)) == Some(seconds)
  {
    var m, s := seconds / 60, seconds % 60;
    var mins, secs := Numbers.NatToString(m), PadStart(Numbers.NatToString(s), 2, '0');
    FormatTimeShape(seconds);
    ParseTimeOf(mins, secs);
    assert m * 60 + s == seconds;
  }

  /** Different durations always show differently. */
  lemma FormatTimeInjective(a: nat, b: nat)
    requires FormatTime(a) == FormatTime(b)
    ensures a == b
  {
    ParseFormatTime(a);
    ParseFormatTime(b);
  }

  /** The recorder's elapsed-time state. */
  class Recorder {
    /** `recordingTime`, in seconds. */
    var recordingTime: nat
    /** Whether the one-second interval is running (`timerRef`). */
    var timerRunning: bool

    constructor ()
      ensures recordingTime == 0 && !timerRunning
    {
      recordingTime := 0;
      timerRunning := false;
    }

    /** `handleStartRecording`; `started` says whether the camera started.
        When it did not, nothing changes. */
    method StartRecording(started: bool)
      modifies this
      ensures started ==> recordingTime == 0 && timerRunning
      ensures !started ==> recordingTime == old(recordingTime) && timerRunning == old(timerRunning)
    {
      if started {
        recordingTime := 0;
        timerRunning := true;
      }
    }

    /** One firing of the interval: one more second. */
    method Tick()
      modifies this
      ensures timerRunning == old(timerRunning)
      ensures recordingTime == if timerRunning then old(recordingTime) + 1 else old(recordingTime)
    {
      if timerRunning {
        recordingTime := recordingTime + 1;
      }
    }

    /** `handleStopRecording`: the interval is cleared; the time shown stays. */
    method StopRecording()
      modifies this
      ensures !timerRunning && recordingTime == old(recordingTime)
    {
      timerRunning := false;
    }
  }
}
