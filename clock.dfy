/**
 * `updateTime` (js/script.js, repeated in script.js): the clock shows
 * `hh:mm:` and the seconds `ss` in a separate element, each zero-padded to
 * two digits, and the date reads `Day, Month d, yyyy`. The readings of the
 * `Date` object are parameters; the stored time zone is not consulted.
 */
module Clock {
  import opened JsValues

  const Days := ["Sunday", "Monday", "Tuesday", "Wednesday", "Thursday", "Friday", "Saturday"]
  const Months := ["January", "February", "March", "April", "May", "June", "July",
                   "August", "September", "October", "November", "December"]

  /** `n.toString().padStart(2, '0')`. */
  function TwoDigits(n: nat): string {
    PadStart2(NatToString(n))
  }

  /** `${hours}:${minutes}:`. */
  function ClockText(hours: nat, minutes: nat): string {
    TwoDigits(hours) + ":" + TwoDigits(minutes) + ":"
  }

  /** `${dayName}, ${monthName} ${date}, ${year}`. */
  function DateText(weekday: nat, month: nat, day: nat, year: int): string
    requires weekday < |Days| && month < |Months|
  {
    Days[weekday] + ", " + Months[month] + " " + NatToString(day) + ", " + IntToString(year)
  }

  /** The clock text is six characters, two digits for the hour and two for
      the minute, each followed by a colon, and each pair reads back as the
      number it shows. */
  lemma ClockTextReadsBack(hours: nat, minutes: nat)
    requires hours < 24 && minutes < 60
    ensures var t := ClockText(hours, minutes);
      |t| == 6 && t[2] == ':' && t[5] == ':' &&
      ParseInt(t[..2]) == Some(hours) && ParseInt(t[3..5]) == Some(minutes)
  {
    TwoDigitsRoundTrip(hours);
    TwoDigitsRoundTrip(minutes);
    ColonPairs(TwoDigits(hours), TwoDigits(minutes));
  }

  lemma ColonPairs(a: string, b: string)
    requires |a| == 2 && |b| == 2
    ensures var t := a + ":" + b + ":";
      |t| == 6 && t[2] == ':' && t[5] == ':' && t[..2] == a && t[3..5] == b
  {
    var t := a + ":" + b + ":";
    assert t[..2] == a;
    assert t[3..5] == b;
  }

  /** The seconds element always holds two digits that read back as the
      seconds. */
  lemma SecondsTextReadsBack(seconds: nat)
    requires seconds < 60
    ensures |TwoDigits(seconds)| == 2 && ParseInt(TwoDigits(seconds)) == Some(seconds)
  {
    TwoDigitsRoundTrip(seconds);
  }

  /** The date text starts with the weekday's name followed by a comma, and
      ends with the year as `toString` writes it. */
  lemma DateTextFrame(weekday: nat, month: nat, day: nat, year: int)
    requires weekday < |Days| && month < |Months|
    ensures var t := DateText(weekday, month, day, year);
      var d := Days[weekday];
      |t| > |d| + 1 && t[..|d| + 1] == d + "," &&
      t[|t| - |IntToString(year)|..] == IntToString(year)
  {
    var t := DateText(weekday, month, day, year);
    var d := Days[weekday];
    var y := IntToString(year);
    assert t == (d + ", " + Months[month] + " " + NatToString(day) + ", ") + y;
    assert t[..|d| + 1] == d + ",";
  }

  class ClockWidget {
    var clockText: string
    var secondsText: string
    var dateText: string
    const hasClock: bool
    const hasSeconds: bool
    const hasDate: bool

    constructor (hasClock: bool, hasSeconds: bool, hasDate: bool)
      ensures this.hasClock == hasClock && this.hasSeconds == hasSeconds && this.hasDate == hasDate
      ensures clockText == "" && secondsText == "" && dateText == ""
    {
      this.hasClock := hasClock;
      this.hasSeconds := hasSeconds;
      this.hasDate := hasDate;
      clockText, secondsText, dateText := "", "", "";
    }

    /** `updateTime()` with the local clock reading; each element is written
        only when it exists. */
    method UpdateTime(hours: nat, minutes: nat, seconds: nat, weekday: nat, month: nat, day: nat, year: int)
      requires weekday < |Days| && month < |Months|
      modifies this
      ensures clockText == if hasClock then ClockText(hours, minutes) else old(clockText)
      ensures secondsText == if hasSeconds then TwoDigits(seconds) else old(secondsText)
      ensures dateText == if hasDate then DateText(weekday, month, day, year) else old(dateText)
    {
      var h := TwoDigits(hours);
      var m := TwoDigits(minutes);
      var s := TwoDigits(seconds);
      if hasClock {
        clockText := h + ":" + m + ":";
      }
      if hasSeconds {
        secondsText := s;
      }
      if hasDate {
        dateText := Days[weekday] + ", " + Months[month] + " " + NatToString(day) + ", " + IntToString(year);
      }
    }
  }
}
