/**
 * The shared location state of js/script.js and script.js: the five global
 * variables written by `requestLocation` and `getCityName`, the texts those
 * functions write, and the weather and air-quality widgets that
 * `getWeatherData` and `getAirQualityData` fill or clear from the
 * coordinates. Each asynchronous request is given by its outcome.
 */
module Location {
  import opened JsValues
  import opened Forecast
  import Weather
  import AirQuality

  /** The guard `!latitude || !longitude` fails: both coordinates are set
      and neither is 0 (a number 0 is falsy). */
  predicate HasCoordinates(latitude: Option<real>, longitude: Option<real>) {
    latitude.Some? && latitude.value != 0.0 && longitude.Some? && longitude.value != 0.0
  }

  /** The fields of a reverse-geocoding `address`. */
  datatype Address = Address(city: Option<string>, town: Option<string>, village: Option<string>,
                             hamlet: Option<string>, county: Option<string>, country: Option<string>)

  const UnknownCity := "Unknown city"
  const UnknownCountry := "Unknown country"

  /** The first truthy candidate, or `default` when there is none. */
  function FirstTruthy(candidates: seq<Option<string>>, default: string): (r: string)
    ensures (forall i :: 0 <= i < |candidates| ==> !Truthy(candidates[i])) ==> r == default
    ensures forall i :: (0 <= i < |candidates| && Truthy(candidates[i]) &&
      forall j :: 0 <= j < i ==> !Truthy(candidates[j])) ==> r == candidates[i].value
  {
    if |candidates| == 0 then default
    else if Truthy(candidates[0]) then candidates[0].value
    else FirstTruthy(candidates[1..], default)
  }

  /** `city || town || village || hamlet || county || "Unknown city"`. */
  function CityOf(a: Address): string {
    if Truthy(a.city) then a.city.value
    else if Truthy(a.town) then a.town.value
    else if Truthy(a.village) then a.village.value
    else if Truthy(a.hamlet) then a.hamlet.value
    else if Truthy(a.county) then a.county.value
    else UnknownCity
  }

  /** `country || "Unknown country"`. */
  function CountryOf(a: Address): (country: string)
    ensures country != ""
    ensures Truthy(a.country) ==> country == a.country.value
    ensures !Truthy(a.country) ==> country == UnknownCountry
  {
    if Truthy(a.country) then a.country.value else UnknownCountry
  }

  /** The city is the first non-empty place name, from the most to the least
      specific, and it is never empty. */
  lemma {:induction false} CityIsFirstPlaceName(a: Address)
    ensures CityOf(a) == FirstTruthy([a.city, a.town, a.village, a.hamlet, a.county], UnknownCity)
    ensures CityOf(a) != ""
  {
    var c5: seq<Option<string>> := [];
    var c4 := [a.county] + c5;
    var c3 := [a.hamlet] + c4;
    var c2 := [a.village] + c3;
    var c1 := [a.town] + c2;
    var c0 := [a.city] + c1;
    assert c0 == [a.city, a.town, a.village, a.hamlet, a.county];
    assert c0[1..] == c1 && c1[1..] == c2 && c2[1..] == c3 && c3[1..] == c4 && c4[1..] == c5;
    assert FirstTruthy(c4, UnknownCity) == if Truthy(a.county) then a.county.value else UnknownCity;
    assert FirstTruthy(c3, UnknownCity) == if Truthy(a.hamlet) then a.hamlet.value else FirstTruthy(c4, UnknownCity);
    assert FirstTruthy(c2, UnknownCity) == if Truthy(a.village) then a.village.value else FirstTruthy(c3, UnknownCity);
    assert FirstTruthy(c1, UnknownCity) == if Truthy(a.town) then a.town.value else FirstTruthy(c2, UnknownCity);
  }

  /** What the geolocation API gives: no API at all, the error callback, or
      a position. */
  datatype GeoOutcome = Unsupported | Denied | Position(latitude: real, longitude: real)

  /** The text of `#location`; `Coordinates` stands for
      `Lat: <lat>°, Long: <lon>°` with two decimals. */
  datatype LocationLine = Initial | Requesting | Coordinates(latitude: real, longitude: real)
                        | Unavailable | NotSupported

  /** The weather widget: as on the page, cleared (question mark, "--°C",
      "Location required", empty chart), or filled from a response. */
  datatype WeatherView = WeatherInitial | WeatherCleared
                       | WeatherShown(icon: string, description: string, uv: Weather.UvBand,
                                      bars: seq<Weather.WeatherBar>)

  /** The air-quality widget, in the same three states. */
  datatype AirView = AirInitial | AirCleared
                   | AirShown(icon: string, index: real, quality: string, bars: seq<AirQuality.AqiBar>)

  /** The parts of a forecast response the widget reads. */
  datatype WeatherData = WeatherData(currentCode: int, hourlyTemps: seq<real>, hourlyCodes: seq<int>,
                                     hourlyUv: seq<real>, timezone: Option<string>)

  /** The parts of an air-quality response the widget reads. */
  datatype AirData = AirData(aqi: real, hourlyAqi: seq<real>)

  /** Hourly arrays cover at least the first day. */
  predicate WeatherComplete(d: WeatherData) {
    |d.hourlyTemps| >= 24 && |d.hourlyCodes| >= 24 && |d.hourlyUv| >= 24
  }

  predicate AirComplete(d: AirData) {
    |d.hourlyAqi| >= 24
  }

  const NoLocation := "No location"
  const DetailsUnavailable := "Location details unavailable"
  const LocalTime := "Local time"

  class LocationContext {
    var latitude: Option<real>
    var longitude: Option<real>
    var city: Option<string>
    var country: Option<string>
    var timezone: Option<string>
    var locationLine: LocationLine
    /** The text of `#location-city`. */
    var cityText: string
    /** The text of `#timezone`. */
    var timezoneText: string
    var weather: WeatherView
    var airQuality: AirView
    /** Requests sent to the forecast and air-quality services. */
    var weatherRequests: nat
    var airRequests: nat
    /** Whether the air-quality icon, index and label elements exist. */
    const hasAirElements: bool
    /** Forecast bars per chart: 12 in js/script.js, 24 in script.js. */
    const window: nat

    /** The page as loaded: all five variables null. */
    constructor (window: nat, hasAirElements: bool, cityText: string, timezoneText: string)
      ensures latitude == None && longitude == None
      ensures city == None && country == None && timezone == None
      ensures this.cityText == cityText && this.timezoneText == timezoneText
      ensures locationLine == Initial && weather == WeatherInitial && airQuality == AirInitial
      ensures weatherRequests == 0 && airRequests == 0
      ensures this.window == window && this.hasAirElements == hasAirElements
    {
      this.window := window;
      this.hasAirElements := hasAirElements;
      this.cityText := cityText;
      this.timezoneText := timezoneText;
      latitude, longitude := None, None;
      city, country, timezone := None, None, None;
      locationLine := Initial;
      weather := WeatherInitial;
      airQuality := AirInitial;
      weatherRequests, airRequests := 0, 0;
    }

    /** `requestLocation()` up to its callbacks. A position stores the
        coordinates; the three follow-up requests it starts are the
        methods below. An error resets all five variables and clears both
        widgets; without the API both widgets are cleared and the variables
        are left alone. */
    method RequestLocation(outcome: GeoOutcome)
      modifies this
      ensures outcome.Position? ==>
        latitude == Some(outcome.latitude) && longitude == Some(outcome.longitude) &&
        city == old(city) && country == old(country) && timezone == old(timezone) &&
        locationLine == Coordinates(outcome.latitude, outcome.longitude) &&
        cityText == "Locating..." && weather == old(weather) && airQuality == old(airQuality)
      ensures outcome.Denied? ==>
        latitude == None && longitude == None && city == None && country == None && timezone == None &&
        locationLine == Unavailable && cityText == NoLocation &&
        weather == WeatherCleared && airQuality == AirCleared
      ensures outcome.Unsupported? ==>
        latitude == old(latitude) && longitude == old(longitude) &&
        city == old(city) && country == old(country) && timezone == old(timezone) &&
        locationLine == NotSupported && cityText == NoLocation &&
        weather == WeatherCleared && airQuality == AirCleared
      ensures timezoneText == old(timezoneText)
      ensures weatherRequests == old(weatherRequests) && airRequests == old(airRequests)
    {
      match outcome {
        case Unsupported =>
          locationLine := NotSupported;
          cityText := NoLocation;
          weather := WeatherCleared;
          airQuality := AirCleared;
        case Denied =>
          locationLine := Requesting;
          cityText := "Locating...";
          locationLine := Unavailable;
          cityText := NoLocation;
          latitude, longitude := None, None;
          city, country, timezone := None, None, None;
          weather := WeatherCleared;
          airQuality := AirCleared;
        case Position(lat, lon) =>
          locationLine := Requesting;
          cityText := "Locating...";
          latitude, longitude := Some(lat), Some(lon);
          locationLine := Coordinates(lat, lon);
      }
    }

    /** The `.catch` of `getCityName`. */
    method ResetDetails()
      modifies this
      ensures city == None && country == None && timezone == None
      ensures cityText == DetailsUnavailable && timezoneText == LocalTime
      ensures latitude == old(latitude) && longitude == old(longitude)
      ensures locationLine == old(locationLine)
      ensures weather == old(weather) && airQuality == old(airQuality)
      ensures weatherRequests == old(weatherRequests) && airRequests == old(airRequests)
    {
      city, country, timezone := None, None, None;
      cityText := DetailsUnavailable;
      timezoneText := LocalTime;
    }

    /** `getCityName(...)`: the reverse-geocoding request (its `address`, or
        None when the reply has none), then the time-zone request (its
        `timeZone`). Any failure, including one of the second request after
        the city was found, resets city, country and time zone; the
        coordinates are kept. */
    method GetCityName(geo: Fetched<Option<Address>>, zone: Fetched<Option<string>>)
      modifies this
      ensures latitude == old(latitude) && longitude == old(longitude)
      ensures locationLine == old(locationLine)
      ensures weather == old(weather) && airQuality == old(airQuality)
      ensures weatherRequests == old(weatherRequests) && airRequests == old(airRequests)
      ensures geo.Failed? || geo.data.None? || zone.Failed? ==>
        city == None && country == None && timezone == None &&
        cityText == DetailsUnavailable && timezoneText == LocalTime
      ensures geo.Loaded? && geo.data.Some? && zone.Loaded? ==>
        var a := geo.data.value;
        city == Some(CityOf(a)) && country == Some(CountryOf(a)) && cityText == CityOf(a) &&
        (Truthy(zone.data) ==>
          timezone == zone.data && timezoneText == CityOf(a) + " time (" + zone.data.value + ")") &&
        (!Truthy(zone.data) ==> timezone == old(timezone) && timezoneText == old(timezoneText))
    {
      match geo {
        case Failed =>
          ResetDetails();
        case Loaded(address) =>
          if address.None? {
            ResetDetails();
            return;
          }
          var a := address.value;
          city := Some(CityOf(a));
          country := Some(CountryOf(a));
          cityText := CityOf(a);
          match zone {
            case Failed =>
              ResetDetails();
            case Loaded(timeZone) =>
              if Truthy(timeZone) {
                timezone := timeZone;
                timezoneText := city.value + " time (" + timezone.value + ")";
              }
          }
      }
    }

    /** `getWeatherData(userLatitude, userLongitude)` during `currentHour`:
        without coordinates the widget is cleared and nothing is requested;
        a failed request clears it; a response fills it and supplies the
        time zone when none is known yet. */
    method GetWeatherData(currentHour: nat, response: Fetched<WeatherData>)
      requires currentHour < 24
      requires response.Loaded? ==> WeatherComplete(response.data)
      modifies this
      ensures latitude == old(latitude) && longitude == old(longitude)
      ensures city == old(city) && country == old(country) && cityText == old(cityText)
      ensures airQuality == old(airQuality) && airRequests == old(airRequests)
      ensures !HasCoordinates(latitude, longitude) ==>
        weather == WeatherCleared && weatherRequests == old(weatherRequests) &&
        timezone == old(timezone) && timezoneText == old(timezoneText)
      ensures HasCoordinates(latitude, longitude) ==> weatherRequests == old(weatherRequests) + 1
      ensures HasCoordinates(latitude, longitude) && response.Failed? ==>
        weather == WeatherCleared && timezone == old(timezone) && timezoneText == old(timezoneText)
      ensures HasCoordinates(latitude, longitude) && response.Loaded? ==>
        var d := response.data;
        var info := Weather.WeatherInfo(d.currentCode);
        weather == WeatherShown(info.icon, info.description, Weather.UvBandOf(d.hourlyUv[currentHour]),
                                Weather.Chart(currentHour, window, d.hourlyTemps, d.hourlyCodes)) &&
        (!Truthy(old(timezone)) && Truthy(d.timezone) ==>
          timezone == d.timezone && timezoneText == d.timezone.value) &&
        (Truthy(old(timezone)) || !Truthy(d.timezone) ==>
          timezone == old(timezone) && timezoneText == old(timezoneText))
    {
      if !HasCoordinates(latitude, longitude) {
        weather := WeatherCleared;
        return;
      }
      weatherRequests := weatherRequests + 1;
      match response {
        case Failed =>
          weather := WeatherCleared;
        case Loaded(d) =>
          var info := Weather.WeatherInfo(d.currentCode);
          var uvIndex := d.hourlyUv[currentHour];
          var bars := Weather.BuildWeatherChart(currentHour, window, d.hourlyTemps, d.hourlyCodes);
          weather := WeatherShown(info.icon, info.description, Weather.UvBandOf(uvIndex), bars);
          if !Truthy(timezone) && Truthy(d.timezone) {
            timezone := d.timezone;
            timezoneText := timezone.value;
          }
      }
    }

    /** `getAirQualityData(userLatitude, userLongitude)` during
        `currentHour`: without coordinates the widget is cleared; with a
        missing element nothing happens at all; otherwise a request is made
        and its outcome fills or clears the widget. */
    method GetAirQualityData(currentHour: nat, response: Fetched<AirData>)
      requires currentHour < 24
      requires response.Loaded? ==> AirComplete(response.data)
      modifies this
      ensures latitude == old(latitude) && longitude == old(longitude)
      ensures city == old(city) && country == old(country) && timezone == old(timezone)
      ensures cityText == old(cityText) && timezoneText == old(timezoneText)
      ensures weather == old(weather) && weatherRequests == old(weatherRequests)
      ensures !HasCoordinates(latitude, longitude) ==>
        airQuality == AirCleared && airRequests == old(airRequests)
      ensures HasCoordinates(latitude, longitude) && !hasAirElements ==>
        airQuality == old(airQuality) && airRequests == old(airRequests)
      ensures HasCoordinates(latitude, longitude) && hasAirElements ==>
        airRequests == old(airRequests) + 1 &&
        (response.Failed? ==> airQuality == AirCleared) &&
        (response.Loaded? ==>
          var d := response.data;
          var band := AirQuality.BandOf(d.aqi);
          airQuality == AirShown(band.Icon(), d.aqi, band.Label(),
                                 AirQuality.Chart(currentHour, window, d.hourlyAqi)))
    {
      if !HasCoordinates(latitude, longitude) {
        airQuality := AirCleared;
        return;
      }
      if !hasAirElements {
        return;
      }
      airRequests := airRequests + 1;
      match response {
        case Failed =>
          airQuality := AirCleared;
        case Loaded(d) =>
          var band := AirQuality.BandOf(d.aqi);
          var bars := AirQuality.BuildAirQualityChart(currentHour, window, d.hourlyAqi);
          airQuality := AirShown(band.Icon(), d.aqi, band.Label(), bars);
      }
    }
  }
}
