/**
 * The weather classifiers of `getWeatherData` and
 * `createWeatherForecastChart` (js/script.js, repeated in script.js): the
 * weather-code table with its default, the UV band, the smaller icon table
 * of the chart, and the temperature bar height. Temperatures and UV values
 * are taken as exact real numbers.
 */
module Weather {
  import opened JsValues
  import opened Forecast

  datatype Condition = Condition(description: string, icon: string)

  const Sun := "\U{2600}\U{FE0F}"
  const SunBehindSmallCloud := "\U{1F324}\U{FE0F}"
  const SunBehindCloud := "\U{26C5}"
  const Cloud := "\U{2601}\U{FE0F}"
  const Fog := "\U{1F32B}\U{FE0F}"
  const SunBehindRainCloud := "\U{1F326}\U{FE0F}"
  const RainCloud := "\U{1F327}\U{FE0F}"
  const Wave := "\U{1F30A}"
  const Snowflake := "\U{2744}\U{FE0F}"
  const SnowCloud := "\U{1F328}\U{FE0F}"
  const ThunderCloud := "\U{26C8}\U{FE0F}"
  const Rainbow := "\U{1F308}"

  const UnknownConditions := Condition("Unknown conditions", Rainbow)

  /** `weatherCodeMap`: the WMO weather codes the widget knows. */
  const WeatherCodes: map<int, Condition> := map[
    0 := Condition("Clear sky", Sun),
    1 := Condition("Mainly clear", SunBehindSmallCloud),
    2 := Condition("Partly cloudy", SunBehindCloud),
    3 := Condition("Overcast", Cloud),
    45 := Condition("Foggy", Fog),
    48 := Condition("Depositing rime fog", Fog),
    51 := Condition("Light drizzle", SunBehindRainCloud),
    53 := Condition("Moderate drizzle", RainCloud),
    55 := Condition("Dense drizzle", RainCloud),
    61 := Condition("Slight rain", RainCloud),
    63 := Condition("Moderate rain", RainCloud),
    65 := Condition("Heavy rain", Wave),
    66 := Condition("Light freezing rain", RainCloud + Snowflake),
    67 := Condition("Heavy freezing rain", RainCloud + Snowflake),
    71 := Condition("Slight snow fall", SnowCloud),
    73 := Condition("Moderate snow fall", SnowCloud),
    75 := Condition("Heavy snow fall", Snowflake),
    77 := Condition("Snow grains", Snowflake),
    80 := Condition("Light rain showers", SunBehindRainCloud),
    81 := Condition("Moderate rain showers", RainCloud),
    82 := Condition("Violent rain showers", Wave),
    85 := Condition("Light snow showers", SnowCloud),
    86 := Condition("Heavy snow showers", Snowflake),
    95 := Condition("Thunderstorm", ThunderCloud),
    96 := Condition("Thunderstorm with light hail", ThunderCloud),
    99 := Condition("Thunderstorm with heavy hail", ThunderCloud)
  ]

  /** `weatherCodeMap[weatherCode] || { "Unknown conditions", rainbow }`. */
  function WeatherInfo(code: int): Condition {
    if code in WeatherCodes then WeatherCodes[code] else UnknownConditions
  }

  /** The description says "Unknown conditions" exactly for the codes the
      table lacks, and a listed code never shows the rainbow. */
  lemma UnknownOnlyForUnlistedCodes(code: int)
    ensures WeatherInfo(code).description == "Unknown conditions" <==> code !in WeatherCodes
    ensures code in WeatherCodes ==> WeatherInfo(code).icon != Rainbow
  {
  }

  /** `weatherIcons` of the chart: only the first fifteen codes. */
  const ChartIcons: map<int, string> := map[
    0 := Sun, 1 := SunBehindSmallCloud, 2 := SunBehindCloud, 3 := Cloud,
    45 := Fog, 48 := Fog,
    51 := SunBehindRainCloud, 53 := RainCloud, 55 := RainCloud,
    61 := RainCloud, 63 := RainCloud, 65 := Wave,
    80 := SunBehindRainCloud, 81 := RainCloud, 82 := Wave
  ]

  function ChartIcon(code: int): string {
    if code in ChartIcons then ChartIcons[code] else Rainbow
  }

  /** The chart and the widget show the same icon for every code the chart
      knows; for the freezing-rain, snow and thunderstorm codes the chart
      shows the rainbow while the widget shows the proper icon. */
  lemma ChartIconAgreesWithWidget(code: int)
    ensures code in ChartIcons ==> code in WeatherCodes && ChartIcon(code) == WeatherInfo(code).icon
    ensures code in WeatherCodes && code !in ChartIcons ==>
      code >= 66 && ChartIcon(code) == Rainbow != WeatherInfo(code).icon
    ensures code !in WeatherCodes ==> ChartIcon(code) == WeatherInfo(code).icon == Rainbow
  {
  }

  // ---------------------------------------------------------------------
  // UV index

  datatype UvBand = Low | Moderate | High | VeryHigh | Extreme {
    function Description(): string {
      match this
      case Low => "Low"
      case Moderate => "Moderate"
      case High => "High"
      case VeryHigh => "Very High"
      case Extreme => "Extreme"
    }

    function Rank(): nat {
      match this
      case Low => 0
      case Moderate => 1
      case High => 2
      case VeryHigh => 3
      case Extreme => 4
    }
  }

  /** "Low" unless one of the four tests of `getWeatherData` holds. */
  function UvBandOf(uv: real): UvBand {
    if uv > 2.0 && uv <= 5.0 then Moderate
    else if uv > 5.0 && uv <= 7.0 then High
    else if uv > 7.0 && uv <= 10.0 then VeryHigh
    else if uv > 10.0 then Extreme
    else Low
  }

  /** The bands split the number line at 2, 5, 7 and 10, each bound
      belonging to the band below it. */
  lemma UvBandIntervals(uv: real)
    ensures UvBandOf(uv) == Low <==> uv <= 2.0
    ensures UvBandOf(uv) == Moderate <==> 2.0 < uv <= 5.0
    ensures UvBandOf(uv) == High <==> 5.0 < uv <= 7.0
    ensures UvBandOf(uv) == VeryHigh <==> 7.0 < uv <= 10.0
    ensures UvBandOf(uv) == Extreme <==> 10.0 < uv
  {
  }

  /** A higher UV index never gets a milder description. */
  lemma UvBandMonotone(a: real, b: real)
    requires a <= b
    ensures UvBandOf(a).Rank() <= UvBandOf(b).Rank()
  {
  }

  // ---------------------------------------------------------------------
  // Temperature bars

  /** `Math.max(...temps)`. */
  function SeqMax(s: seq<real>): (m: real)
    requires |s| > 0
    ensures m in s
    ensures forall i :: 0 <= i < |s| ==> s[i] <= m
  {
    if |s| == 1 then s[0]
    else
      var rest := SeqMax(s[1..]);
      if s[0] >= rest then s[0] else rest
  }

  /** `Math.min(...temps)`. */
  function SeqMin(s: seq<real>): (m: real)
    requires |s| > 0
    ensures m in s
    ensures forall i :: 0 <= i < |s| ==> m <= s[i]
  {
    if |s| == 1 then s[0]
    else
      var rest := SeqMin(s[1..]);
      if s[0] <= rest then s[0] else rest
  }

  /** `Math.max(10, range > 0 ? ((temp - min) / range) * 100 : 50)`. */
  function TempBarHeight(temp: real, lo: real, hi: real): real {
    var range := hi - lo;
    var percentage := if range > 0.0 then ((temp - lo) / range) * 100.0 else 50.0;
    if percentage > 10.0 then percentage else 10.0
  }

  /** A temperature within the day's range gets a bar between 10 % and
      100 %; the warmest hour reaches 100 %, and a flat day draws every bar
      at 50 %. */
  lemma TempBarHeightBounds(temp: real, lo: real, hi: real)
    requires lo <= temp <= hi
    ensures 10.0 <= TempBarHeight(temp, lo, hi) <= 100.0
    ensures lo < hi && temp == hi ==> TempBarHeight(temp, lo, hi) == 100.0
    ensures lo == hi ==> TempBarHeight(temp, lo, hi) == 50.0
  {
    var range := hi - lo;
    if range > 0.0 {
      assert (temp - lo) / range <= 1.0 by {
        assert temp - lo <= range;
      }
      assert 0.0 <= (temp - lo) / range;
    }
  }

  /** A warmer hour never gets a shorter bar. */
  lemma TempBarHeightMonotone(a: real, b: real, lo: real, hi: real)
    requires a <= b
    ensures TempBarHeight(a, lo, hi) <= TempBarHeight(b, lo, hi)
  {
    var range := hi - lo;
    if range > 0.0 {
      assert (a - lo) / range <= (b - lo) / range;
    }
  }

  /** One bar of the weather chart. */
  datatype WeatherBar = WeatherBar(hour: nat, timeLabel: string, icon: string, temp: real, height: real)

  /** The bar for `hour`, scaled against the whole temperature array. */
  function BarFor(hour: nat, temps: seq<real>, codes: seq<int>): WeatherBar
    requires hour < |temps| && hour < |codes|
  {
    var temp := temps[hour];
    WeatherBar(hour, HourLabel(hour), ChartIcon(codes[hour]), temp,
               TempBarHeight(temp, SeqMin(temps), SeqMax(temps)))
  }

  /** The bars of a chart drawn during `currentHour`: bar k is for hour
      `(currentHour + k) % 24`. */
  function Chart(currentHour: nat, window: nat, temps: seq<real>, codes: seq<int>): seq<WeatherBar>
    requires |temps| >= 24 && |codes| >= 24
  {
    seq(window, k requires 0 <= k < window => BarFor(HourIndex(currentHour, k), temps, codes))
  }

  /** `createWeatherForecastChart`, drawing `window` bars. */
  method BuildWeatherChart(currentHour: nat, window: nat, temps: seq<real>, codes: seq<int>)
    returns (bars: seq<WeatherBar>)
    requires currentHour < 24 && |temps| >= 24 && |codes| >= 24
    ensures bars == Chart(currentHour, window, temps, codes)
  {
    bars := [];
    var i := currentHour;
    while i < currentHour + window
      invariant currentHour <= i <= currentHour + window
      invariant |bars| == i - currentHour
      invariant forall k :: 0 <= k < |bars| ==> bars[k] == BarFor(HourIndex(currentHour, k), temps, codes)
    {
      var hourIndex := i % 24;
      var temp := temps[hourIndex];
      var icon := ChartIcon(codes[hourIndex]);
      var maxTemp := SeqMax(temps);
      var minTemp := SeqMin(temps);
      var bar := WeatherBar(hourIndex, HourLabel(hourIndex), icon, temp, TempBarHeight(temp, minTemp, maxTemp));
      bars := bars + [bar];
      i := i + 1;
    }
  }

  /** Every bar of a weather chart is between 10 % and 100 % high, and the
      bars of one chart are for different hours as long as the window is at
      most a day. */
  lemma {:induction false} ChartBarsWellFormed(currentHour: nat, window: nat, temps: seq<real>, codes: seq<int>)
    requires |temps| >= 24 && |codes| >= 24
    ensures var bars := Chart(currentHour, window, temps, codes);
      |bars| == window &&
      (forall k :: 0 <= k < window ==> 10.0 <= bars[k].height <= 100.0 && bars[k].hour < 24) &&
      (window <= DayWindow ==> forall i, j :: 0 <= i < j < window ==> bars[i].hour != bars[j].hour)
  {
    var bars := Chart(currentHour, window, temps, codes);
    forall k | 0 <= k < window
      ensures 10.0 <= bars[k].height <= 100.0
    {
      var hour := HourIndex(currentHour, k);
      TempBarHeightBounds(temps[hour], SeqMin(temps), SeqMax(temps));
    }
    if window <= DayWindow {
      forall i, j | 0 <= i < j < window
        ensures bars[i].hour != bars[j].hour
      {
        WindowHoursDistinct(currentHour, window, i, j);
      }
    }
  }
}
