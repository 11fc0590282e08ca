/**
 * The air-quality classifiers of `getAirQualityData` and
 * `createAirQualityForecastChart` (js/script.js, repeated in script.js):
 * the European AQI band with its label and icon, the bar colour, which the
 * chart computes with its own copy of the thresholds, and the bar height.
 * AQI values are taken as exact real numbers.
 */
module AirQuality {
  import opened JsValues
  import opened Forecast

  /** The six bands of the European AQI, from best to worst. */
  datatype Band = VeryGood | Good | Moderate | Poor | VeryPoor | ExtremelyPoor {
    function Label(): string {
      match this
      case VeryGood => "Very Good"
      case Good => "Good"
      case Moderate => "Moderate"
      case Poor => "Poor"
      case VeryPoor => "Very Poor"
      case ExtremelyPoor => "Extremely Poor"
    }

    /** Very Good and Good share the green circle. */
    function Icon(): string {
      match this
      case VeryGood => "\U{1F7E2}"
      case Good => "\U{1F7E2}"
      case Moderate => "\U{1F7E1}"
      case Poor => "\U{1F7E0}"
      case VeryPoor => "\U{1F534}"
      case ExtremelyPoor => "\U{1F7E4}"
    }

    /** The colour of a chart bar in this band. */
    function Color(): string {
      match this
      case VeryGood => "#00e400"
      case Good => "#92d050"
      case Moderate => "#ffff00"
      case Poor => "#ff7e00"
      case VeryPoor => "#ff0000"
      case ExtremelyPoor => "#7e0023"
    }

    /** 0 for the best band, 5 for the worst. */
    function Rank(): nat {
      match this
      case VeryGood => 0
      case Good => 1
      case Moderate => 2
      case Poor => 3
      case VeryPoor => 4
      case ExtremelyPoor => 5
    }

    /** The interval of AQI values the band stands for: each upper bound
        belongs to its band. */
    predicate Contains(aqi: real) {
      match this
      case VeryGood => aqi <= 20.0
      case Good => 20.0 < aqi <= 40.0
      case Moderate => 40.0 < aqi <= 60.0
      case Poor => 60.0 < aqi <= 80.0
      case VeryPoor => 80.0 < aqi <= 100.0
      case ExtremelyPoor => 100.0 < aqi
    }
  }

  /** The if/else chain of `getAirQualityData`. */
  function BandOf(aqi: real): Band {
    if aqi <= 20.0 then VeryGood
    else if aqi <= 40.0 then Good
    else if aqi <= 60.0 then Moderate
    else if aqi <= 80.0 then Poor
    else if aqi <= 100.0 then VeryPoor
    else ExtremelyPoor
  }

  /** The separate if/else chain of the chart. */
  function BarColor(aqi: real): string {
    if aqi <= 20.0 then "#00e400"
    else if aqi <= 40.0 then "#92d050"
    else if aqi <= 60.0 then "#ffff00"
    else if aqi <= 80.0 then "#ff7e00"
    else if aqi <= 100.0 then "#ff0000"
    else "#7e0023"
  }

  /** Each AQI gets exactly the band whose interval holds it. */
  lemma BandIsInterval(aqi: real, band: Band)
    ensures BandOf(aqi) == band <==> band.Contains(aqi)
  {
  }

  /** A higher AQI never gets a better band. */
  lemma BandMonotone(a: real, b: real)
    requires a <= b
    ensures BandOf(a).Rank() <= BandOf(b).Rank()
  {
  }

  /** The chart's colour always belongs to the band the widget names. */
  lemma ColorAgreesWithBand(aqi: real)
    ensures BarColor(aqi) == BandOf(aqi).Color()
  {
  }

  /** The scale the bar heights are drawn against. */
  const MaxAqi := 150.0

  /** `Math.max(10, Math.min(100, (aqi / 150) * 100))`, in percent. */
  function BarHeight(aqi: real): (h: real)
    ensures 10.0 <= h <= 100.0
    ensures aqi >= MaxAqi ==> h == 100.0
    ensures aqi <= 15.0 ==> h == 10.0
  {
    var percentage := var p := (aqi / MaxAqi) * 100.0; if p < 100.0 then p else 100.0;
    if percentage > 10.0 then percentage else 10.0
  }

  /** Taller bars mean worse air. */
  lemma BarHeightMonotone(a: real, b: real)
    requires a <= b
    ensures BarHeight(a) <= BarHeight(b)
  {
  }

  /** One bar of the air-quality chart. */
  datatype AqiBar = AqiBar(hour: nat, timeLabel: string, aqi: real, color: string, height: real)

  function BarAt(hour: nat, aqis: seq<real>): AqiBar
    requires hour < |aqis|
  {
    var aqi := aqis[hour];
    AqiBar(hour, HourLabel(hour), aqi, BarColor(aqi), BarHeight(aqi))
  }

  /** The bars of a chart drawn during `currentHour`: bar k is for hour
      `(currentHour + k) % 24`. */
  function Chart(currentHour: nat, window: nat, aqis: seq<real>): seq<AqiBar>
    requires |aqis| >= 24
  {
    seq(window, k requires 0 <= k < window => BarAt(HourIndex(currentHour, k), aqis))
  }

  /** `createAirQualityForecastChart`, drawing `window` bars. */
  method BuildAirQualityChart(currentHour: nat, window: nat, aqis: seq<real>) returns (bars: seq<AqiBar>)
    requires currentHour < 24 && |aqis| >= 24
    ensures bars == Chart(currentHour, window, aqis)
  {
    bars := [];
    var i := currentHour;
    while i < currentHour + window
      invariant currentHour <= i <= currentHour + window
      invariant |bars| == i - currentHour
      invariant forall k :: 0 <= k < |bars| ==> bars[k] == BarAt(HourIndex(currentHour, k), aqis)
    {
      var hourIndex := i % 24;
      var aqi := aqis[hourIndex];
      var color := BarColor(aqi);
      var bar := AqiBar(hourIndex, HourLabel(hourIndex), aqi, color, BarHeight(aqi));
      bars := bars + [bar];
      i := i + 1;
    }
  }

  /** Every bar of a chart is coloured by the band of its own hour's AQI
      and is between 10 % and 100 % high; the 24 bars of a full-day chart
      are for 24 different hours. */
  lemma {:induction false} ChartBarsFollowBands(currentHour: nat, window: nat, aqis: seq<real>)
    requires |aqis| >= 24
    ensures var bars := Chart(currentHour, window, aqis);
      |bars| == window &&
      (forall k :: 0 <= k < window ==>
        bars[k].color == BandOf(bars[k].aqi).Color() && 10.0 <= bars[k].height <= 100.0) &&
      (window <= DayWindow ==> forall i, j :: 0 <= i < j < window ==> bars[i].hour != bars[j].hour)
  {
    var bars := Chart(currentHour, window, aqis);
    forall k | 0 <= k < window
      ensures bars[k].color == BandOf(bars[k].aqi).Color()
    {
      ColorAgreesWithBand(bars[k].aqi);
    }
    if window <= DayWindow {
      forall i, j | 0 <= i < j < window
        ensures bars[i].hour != bars[j].hour
      {
        WindowHoursDistinct(currentHour, window, i, j);
      }
    }
  }
}
