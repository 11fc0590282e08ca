/**
 * The hour window of the forecast charts. Both chart builders start at the
 * current hour and step `i` up by one, reading the hourly arrays at
 * `i % 24` and labelling the bar `hourIndex + ':00'`. js/script.js draws
 * 12 bars, script.js draws 24; everything else is shared.
 */
module Forecast {
  import opened JsValues

  /** Bars per chart in js/script.js. */
  const ShortWindow := 12
  /** Bars per chart in script.js. */
  const DayWindow := 24

  /** The hour of bar `k` when the chart is drawn during `currentHour`. */
  function HourIndex(currentHour: nat, k: nat): (hour: nat)
    ensures hour < 24
  {
    (currentHour + k) % 24
  }

  /** `hourIndex + ':00'`: no zero padding. */
  function HourLabel(hour: nat): string {
    NatToString(hour) + ":00"
  }

  /** Within one day's window no hour is drawn twice. */
  lemma WindowHoursDistinct(currentHour: nat, window: nat, i: nat, j: nat)
    requires window <= DayWindow && i < window && j < window && i != j
    ensures HourIndex(currentHour, i) != HourIndex(currentHour, j)
  {
  }

  /** The 24-bar window of script.js shows every hour of the day. */
  lemma {:induction false} DayWindowCoversEveryHour(currentHour: nat, hour: nat)
    requires hour < 24
    ensures exists k :: 0 <= k < DayWindow && HourIndex(currentHour, k) == hour
  {
    var r := currentHour % 24;
    var k := (hour + 24 - r) % 24;
    assert currentHour == 24 * (currentHour / 24) + r;
    if hour >= r {
      assert k == hour - r;
      assert currentHour + k == 24 * (currentHour / 24) + hour;
    } else {
      assert k == hour + 24 - r;
      assert currentHour + k == 24 * (currentHour / 24 + 1) + hour;
    }
    assert HourIndex(currentHour, k) == hour;
  }

  /** A run of digits followed by a non-digit reads as the digits' value. */
  lemma {:induction false} DigitRunStops(ds: string, rest: string)
    requires forall i :: 0 <= i < |ds| ==> IsDecimalDigit(ds[i])
    requires |rest| > 0 && !IsDecimalDigit(rest[0])
    ensures DigitRun(ds + rest, 10) == |ds|
  {
    if |ds| > 0 {
      assert (ds + rest)[1..] == ds[1..] + rest;
      DigitRunStops(ds[1..], rest);
    } else {
      assert (ds + rest)[0] == rest[0];
    }
  }

  /** A bar's label names its hour: it ends in ":00", is at most five
      characters long, and parseInt reads the hour back from it. */
  lemma HourLabelNamesHour(hour: nat)
    requires hour < 24
    ensures var l := HourLabel(hour);
      4 <= |l| <= 5 && l[|l| - 3..] == ":00" && ParseInt(l) == Some(hour)
  {
    var ds := NatToString(hour);
    var l := ds + ":00";
    assert |NatToString(hour / 10)| == 1;
    DigitRunStops(ds, ":00");
    assert IsDecimalDigit(l[0]);
    TrimStartKeeps(l);
    assert l[..|ds|] == ds;
    NatToStringValue(hour);
  }
}
