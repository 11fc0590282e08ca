# Daily dashboard: a verified model of its rules

The dashboard is a browser "new tab" page. Around its network and DOM glue sit a few deterministic rules, and this project models them in Dafny:

- **Task list** (`js/comp_work.js`): a newest-first list under the storage key `tasks`. It supports add-to-front (blank input is ignored), remove-at-index with `splice` semantics and toggle-at-index. Each operation re-renders one item per task, with that item's handlers bound to its index. The notes textarea is saved on every edit.
- **Cache, then fetch, then fall back**, in two instances:
  - the random fact (`js/comp_fact.js`);
  - the trending list (`js/comp_trend.js`).

  A cached value younger than 300000 ms is served without a fetch. Otherwise the fetch result is stored with a timestamp and rendered. A failure renders the cached value, even a stale one, or else a fixed message.
- **Trend list builder**: at most nine numbered entries. Each has a title fallback and a three-step link fallback.
- **Movie proxy chain** (`js/comp_movie.js`): three proxies are tried in order. The first success wins; when all fail the page shows `Movie Not Found`.
- **Page-script rules** (`js/script.js` and its near-duplicate `script.js`):
  - the European AQI band, colour and bar height;
  - the UV band;
  - the weather-code table;
  - the forecast hour window `(h + k) mod 24`, 12 bars in `js/script.js` and 24 in `script.js`;
  - the temperature bar height;
  - the coordinate guard;
  - the city fallback chain;
  - the location variables and how they are reset;
  - the clock and date text;
  - the theme choice;
  - the `script.js` task panel (`initTasks` / `saveTasks`).

How the model is built:

- `localStorage` is a `map<string, string>`.
- Every network result is a `Fetched<T>` value, either `Failed` or `Loaded(data)`.
- Clock readings are integer parameters.
- Each storage or page element the code updates in place is a field of a class.
- Where the code has a loop (rendering tasks, building the trend list, walking the proxies, building charts, saving tasks), the model has a `while` or `for` loop. Each such method is proved against a specification function.
- One call of each cached pipeline is also a pure function. The lemmas about it cover the cache hit, the success write, the failure fallback and two calls in a row.

The JavaScript semantics the rules depend on are written out in module `JsValues`:

- truthiness of a storage read;
- `String.prototype.trim` over the ECMAScript white-space and line-terminator characters;
- `parseInt`, following section 19.2.5 of ECMA-262: leading white space, sign, `0x` prefix, longest digit run, NaN as `None`;
- `Number.prototype.toString` for integers;
- `padStart(2, '0')`.

The forecast window is a parameter of the location context, so both page scripts share one model. Where the two scripts diverge:

- The window length differs: 12 bars in `js/script.js`, 24 in `script.js`.
- The weather and air-quality icons and the degree sign differ. `script.js` holds them as double-encoded text, and the model uses the code points of `js/script.js`.

Behaviours of the code that the model keeps on purpose:

- The trend pipeline caches the time captured at the *start* of the call. Its failure path renders the value read before the fetch. Its cache writes are not guarded, so a storage error leads to the fallback render.
- The fact pipeline caches the time at *completion*. Its failure path re-reads storage. A storage error is swallowed and the fact is still shown.
- A latitude or longitude of exactly 0 counts as "no location", because the guard tests truthiness.
- A time-zone lookup failure after the city was found still erases city, country and time zone.
- `updateTime` ignores the stored time zone.
- The weather chart's own icon table knows only fifteen codes, so it shows 🌈 for the freezing-rain, snow and thunderstorm codes, while the widget shows their proper icons.
- `script.js`'s `initTasks` reads the clock once per restored row, so rows created within the same millisecond share one element id, and a label's `for` can then name another row's checkbox.
- `js/comp_work.js` and `script.js` both use the key `tasks`, but they store different record shapes.

## Model

| member | source | states |
|---|---|---|
| JsValues.Trim | js/comp_work.js:73 | `s.trim()`: drops leading and trailing ECMAScript white space and line terminators (properties in TrimStartSpec, TrimEndSpec, TrimBlank) |
| JsValues.TrimStartSpec | js/comp_work.js:73 | the trimmed prefix is all white space and what remains is empty or starts with a non-space character |
| JsValues.TrimEndSpec | js/comp_work.js:73 | the trimmed suffix is all white space and what remains is empty or ends with a non-space character |
| JsValues.TrimBlank | js/comp_work.js:73-74 | trimming yields "" exactly when the input is all white space; otherwise the result begins and ends with non-space characters |
| JsValues.IntToString | js/comp_fact.js:53 | `toString` of an integer timestamp: a minus sign for negative values, then the decimal numeral |
| JsValues.ParseInt | js/comp_fact.js:19 | `parseInt(s)`: skips leading white space, takes one sign and an optional `0x`, reads the longest digit run, NaN when there is none |
| JsValues.NatToString | js/comp_fact.js:53 | the decimal text of a number is non-empty, all digits, and starts with a zero only when it is the single digit "0" |
| JsValues.ParseIntToString | js/comp_fact.js:19 | `parseInt` of the `toString` of any integer gives back that integer, so a stored timestamp reads back exactly |
| JsValues.ParseIntNaN | js/comp_fact.js:19-22 | text whose first non-space character is not a sign or digit parses to NaN |
| JsValues.PadStart2 | js/script.js:552-554 | the result is the input when it is at least two long, else the input with zeros in front to length two |
| JsValues.TwoDigitsRoundTrip | js/script.js:552-554 | every number below 100 is written as exactly two digits that parse back to it |
| Cache.IsFresh | js/comp_fact.js:18-22 | the cache test: both stored strings non-empty and `now - parseInt(stamp) < 300000`, a NaN age failing it |
| Cache.Persist | js/comp_fact.js:51-59 | both writes land, only the value lands, or nothing lands, depending on which `setItem` throws; other keys are untouched |
| Cache.StoredStampFreshness | js/comp_fact.js:18-22 | a value stored with timestamp t is served from cache exactly while `now - t < 300000`, so exactly 300000 ms is stale |
| Cache.NonNumericStampIsStale | js/comp_fact.js:19-22 | a timestamp that does not parse (NaN) or an empty value never counts as fresh |
| Fact.Fallback | js/comp_fact.js:71-81 | what the failure path shows: the fact stored at that moment when it is non-empty, else "Could not fetch a fact" |
| Fact.Complete | js/comp_fact.js:46-86 | storage and shown text once the request settles: success persists fact and completion time and shows the fact; failure writes nothing and shows the fallback |
| Fact.Invoke | js/comp_fact.js:3-87 | one whole call: a cache hit shows the cached fact without a request, otherwise one request followed by its completion |
| Fact.HitServesCache | js/comp_fact.js:18-29 | on a fresh cache the cached fact is shown and storage is unchanged, whatever the fetch would have given |
| Fact.SuccessStoresFact | js/comp_fact.js:46-64 | on a stale cache a fetched fact is shown and stored with the completion time |
| Fact.QuotaErrorStillShowsFact | js/comp_fact.js:51-63 | a storage error during the write does not stop the fact from being shown |
| Fact.FailureFallsBack | js/comp_fact.js:67-83 | a failed fetch shows the stored fact, even a stale one, or "Could not fetch a fact", and writes nothing |
| Fact.FailureReadsStorageAtCompletion | js/comp_fact.js:71 | the failure path reads storage as it is when the request fails, not as it was at the start |
| Fact.SecondCallServedFromCache | js/comp_fact.js:18-29 | after a successful fetch, a second call within 300000 ms of completion is a cache hit and shows the same fact |
| Fact.EmptyFactIsRequestedAgain | js/comp_fact.js:18 | an empty fact is stored but counts as absent, so the next call fetches again |
| Fact.FactWidget.Begin | js/comp_fact.js:7-29 | a fresh cache renders the cached fact and starts no request; otherwise one request is counted and nothing else changes |
| Fact.FactWidget.Finish | js/comp_fact.js:46-86 | storage and text become exactly those of the completion step |
| Fact.FactWidget.FetchRandomFact | js/comp_fact.js:3-87 | storage, text and request count after a whole call are those of the pure model of one call |
| Trends.TitleOf | js/comp_trend.js:60 | the title text, or "Unknown Trend" when it is missing or empty |
| Trends.LinkOf | js/comp_trend.js:63-75 | the news URL unless it is absent or "#", else the second link when there are two or more, else "#" |
| Trends.Entries | js/comp_trend.js:56-75 | the entries of the first `min(n, 9)` feed items, numbered from 1, each with its title and link fallback |
| Trends.ListHtml | js/comp_trend.js:78-83 | the concatenation of the entry template for each entry, in order |
| Trends.EntriesShape | js/comp_trend.js:56-84 | the list has `min(n, 9)` entries for n feed items, entry i is numbered i+1 and is built from item i in feed order |
| Trends.ListHtmlEmpty | js/comp_trend.js:53-84 | the rendered list is empty exactly when there are no entries |
| Trends.BuildTrendsHtml | js/comp_trend.js:53-84 | the loop yields the markup of the first `min(n, 9)` entries of n feed items in order |
| Trends.Fallback | js/comp_trend.js:101-109 | what the failure path shows: the list read at the start of the call when non-empty, else the "Could not fetch trends" item |
| Trends.Complete | js/comp_trend.js:46-112 | storage and list once the request settles: without the list nothing; a success renders and caches with the start time, and a throwing write falls into the failure path; a failure shows the fallback |
| Trends.Invoke | js/comp_trend.js:3-113 | one whole call: a cache hit shows the cached list without a request, otherwise one request followed by its completion |
| Trends.HitServesCache | js/comp_trend.js:16-27 | on a fresh cache the cached list is shown and storage is unchanged |
| Trends.SuccessStoresStartTime | js/comp_trend.js:9 | on success with the list present, the new list is shown and stored with the time captured at the start of the call |
| Trends.NoListNoEffect | js/comp_trend.js:87-94 | without the list element a successful fetch neither renders nor caches |
| Trends.FailureUsesStartSnapshot | js/comp_trend.js:98-111 | a failure shows the value read before the fetch, even stale, or the error item, and writes nothing |
| Trends.QuotaErrorShowsFallback | js/comp_trend.js:87-103 | a throwing cache write sends the call to the failure path, which replaces the fresh list with the fallback |
| Trends.SecondCallServedFromCache | js/comp_trend.js:16-27 | after a successful fetch, a second call within 300000 ms of the start of the first is a cache hit showing the same list |
| Trends.TrendsWidget.Begin | js/comp_trend.js:7-27 | a fresh cache renders the cached list and starts nothing; otherwise a request is counted, carrying the start time and the snapshot |
| Trends.TrendsWidget.Finish | js/comp_trend.js:46-112 | storage and the list become exactly those of the completion step |
| Trends.TrendsWidget.FetchGoogleTrends | js/comp_trend.js:3-113 | the state after a whole call is that of the pure model of one call |
| Movie.MovieTitle | js/comp_movie.js:45-46 | the trimmed title text, "" when that text is blank, or "Unknown Movie" when no title element exists |
| Movie.FirstSuccess | js/comp_movie.js:21-26 | the index of the first successful attempt, with every earlier attempt failed, or 3 when all fail |
| Movie.TryFetchWithProxy | js/comp_movie.js:21-83 | proxies are tried in list order and the chain stops at the first success, whose title is shown; if all three fail, all were tried and "Movie Not Found" is shown |
| Movie.ChainScenarios | js/comp_movie.js:78-82 | two failures then a page with a padded title show the trimmed title after three tries; three failures exhaust the chain |
| Movie.MovieBadge.FetchRandomMovie | js/comp_movie.js:3-87 | with either element missing nothing happens; otherwise the shown name and the number of requests follow the chain |
| Tasks.Rendered | js/comp_work.js:20-49 | one item per task in order, each with the task's text and state, the "completed" class iff the task is done, and handlers bound to its own index |
| Tasks.Unshift | js/comp_work.js:80-84 | the new task comes first and the old tasks follow in order, shifted by one |
| Tasks.RemoveAt | js/comp_work.js:101 | `splice(index, 1)`: removes the task at an in-range index, leaves the list alone at or past the end, counts a negative index from the end and clamps it at the start |
| Tasks.Toggle | js/comp_work.js:115 | only the completed flag of the task at the index flips; text, timestamp and every other task stay |
| Tasks.RemoveTakesOne | js/comp_work.js:101 | an in-range removal takes exactly that one task out of the multiset of tasks |
| Tasks.RemoveFirstUndoesAdd | js/comp_work.js:80-104 | removing index 0 right after an add restores the previous list |
| Tasks.ToggleTwice | js/comp_work.js:115 | toggling the same task twice restores the list |
| Tasks.AddToggleRemove | js/comp_work.js:80-115 | an added task can be toggled at index 0 and then removed, giving back the original list |
| Tasks.RemoveButtonRemovesItsTask | js/comp_work.js:41 | the remove button of rendered item i removes task i |
| Tasks.CheckboxTogglesItsTask | js/comp_work.js:29-30 | the checkbox of rendered item i toggles task i and the re-rendered item shows the flipped state |
| Tasks.TaskWidget.LoadTasks | js/comp_work.js:51-66 | with the list element, the items become the rendering of the stored tasks (none when the key is missing); without it nothing changes |
| Tasks.TaskWidget.AddTask | js/comp_work.js:68-94 | blank input or a missing input changes nothing; otherwise the trimmed text is stored first with completed false, the input is cleared and the list re-rendered |
| Tasks.TaskWidget.RemoveTask | js/comp_work.js:96-108 | the stored list becomes the `splice` of the old one, then the list is re-rendered |
| Tasks.TaskWidget.ToggleTaskCompletion | js/comp_work.js:110-122 | an in-range index flips only that task and re-renders; an out-of-range index stops the handler before any write |
| Notes.Restore | js/comp_work.js:6-9 | what the textarea shows after loading: the saved note when it is non-empty, else the page's own content |
| Notes.ReloadShowsLastEdit | js/comp_work.js:6-15 | after an edit, the next load shows the edited text unless it was emptied |
| Notes.FirstVisitKeepsPage | js/comp_work.js:6-9 | without saved notes the textarea keeps its own content |
| Notes.NotesWidget.InitNotes | js/comp_work.js:6-9 | a non-empty saved note is put in the textarea; anything else leaves it |
| Notes.NotesWidget.OnInput | js/comp_work.js:13-15 | the stored note always equals the textarea's latest value |
| Notes.EditThenReload | js/comp_work.js:6-15 | after an edit `v` on one page, the next load over the same storage shows `v`, or the page's own content when `v` is empty |
| SavedTasks.RowId | script.js:832 | `'task-' + Date.now()` |
| SavedTasks.RowIdInjective | script.js:832 | two rows get the same id exactly when they were created at the same clock reading |
| SavedTasks.PlainText | script.js:836 | text without `<`, `&`, carriage return or NUL (U+0000), which the HTML parser keeps as it is inside the label |
| SavedTasks.LabelsParsedFrom | script.js:834-837 | each label is the parse of its saved text and equals that text when the text is plain |
| SavedTasks.RowsFor | script.js:814-842 | one row per saved task in order: its id from its own clock reading, its checkbox state, and as label the parse of its text, which is the text itself when the text is plain |
| SavedTasks.Collected | script.js:845-858 | one `{text, completed}` record per row in page order, without a timestamp |
| SavedTasks.SaveAfterRestore | script.js:803-858 | saving right after a restore writes back the saved list exactly when every label reads back as its text, and so always when every text is plain |
| SavedTasks.RestoredRowIds | script.js:832 | two restored rows share an id exactly when they were created within the same millisecond |
| SavedTasks.TaskPanel.InitTasks | script.js:802-825 | with the list element, a non-empty saved list replaces the page's rows by its rows, each with its own clock reading and parsed label; otherwise the default rows are kept and wired |
| SavedTasks.TaskPanel.SaveTasks | script.js:845-859 | storage becomes the collected rows and nothing else changes |
| SavedTasks.TaskPanel.OnCheckboxChange | script.js:833-842 | the row's state changes and the whole panel is saved |
| Forecast.HourLabel | js/script.js:348 | the bar label `hourIndex + ':00'` (properties in HourLabelNamesHour) |
| Forecast.HourIndex | js/script.js:345-348 | bar k of a chart drawn in hour h is for hour `(h + k) mod 24`, always below 24 |
| Forecast.WindowHoursDistinct | js/script.js:345-348 | within a window of at most 24 bars no hour appears twice |
| Forecast.DayWindowCoversEveryHour | script.js:329-332 | the 24 bars of a full-day chart cover every hour of the day |
| Forecast.HourLabelNamesHour | js/script.js:345-348 | the label `hour:00` is four or five characters, ends in ":00", and its number reads back as the hour |
| AirQuality.BandOf | js/script.js:435-453 | the if/else chain at 20, 40, 60, 80 and 100 choosing the band, with its label and icon |
| AirQuality.BarColor | js/script.js:496-501 | the chart's own copy of the thresholds, choosing the bar colour |
| AirQuality.BandIsInterval | js/script.js:435-453 | an AQI gets a band exactly when the band's interval (20, 40, 60, 80, 100, bounds inclusive) holds it |
| AirQuality.BandMonotone | js/script.js:435-453 | a higher AQI never gets a better band |
| AirQuality.ColorAgreesWithBand | js/script.js:496-501 | the chart's colour is always the colour of the band the widget names |
| AirQuality.BarHeight | js/script.js:504-510 | the height is in [10, 100], 100 from an AQI of 150, 10 up to 15 |
| AirQuality.BarHeightMonotone | js/script.js:504-510 | a worse AQI never draws a shorter bar |
| AirQuality.Chart | js/script.js:489-510 | bar k of a chart drawn in hour h is for hour `(h + k) mod 24`, with that hour's label, AQI, colour and height |
| AirQuality.BuildAirQualityChart | js/script.js:478-530 | the loop draws bar k for hour `(h + k) mod 24` with that hour's AQI, colour, label and height |
| AirQuality.ChartBarsFollowBands | script.js:473-476 | every bar's colour matches its AQI's band and its height lies in [10, 100]; a window of at most a day repeats no hour |
| Weather.WeatherInfo | js/script.js:257-287 | the 26-entry weather-code table, with "Unknown conditions" and 🌈 for any other code |
| Weather.ChartIcon | js/script.js:354-362 | the chart's 15-entry icon table, with 🌈 for any other code |
| Weather.UnknownOnlyForUnlistedCodes | js/script.js:257-287 | "Unknown conditions" appears exactly for codes the table lacks, and listed codes never show the rainbow |
| Weather.ChartIconAgreesWithWidget | js/script.js:354-362 | the chart and the widget agree on every code the chart knows; the codes from 66 up that the widget knows get the rainbow in the chart |
| Weather.UvBandOf | js/script.js:299-303 | the four tests choosing the UV description, "Low" when none holds |
| Weather.UvBandIntervals | js/script.js:299-303 | exactly one UV band applies, split at 2, 5, 7 and 10 with each bound in the band below |
| Weather.UvBandMonotone | js/script.js:299-303 | a higher UV index never gets a milder description |
| Weather.SeqMax | js/script.js:365-366 | the maximum is one of the temperatures and no temperature exceeds it |
| Weather.SeqMin | js/script.js:365-366 | the minimum is one of the temperatures and none is below it |
| Weather.TempBarHeight | js/script.js:365-373 | `max(10, range > 0 ? (temp - min) / range * 100 : 50)` against the day's range |
| Weather.TempBarHeightBounds | script.js:349-357 | a temperature within the day's range draws a bar in [10, 100]; the warmest reaches 100 and a flat day draws 50 |
| Weather.TempBarHeightMonotone | script.js:349-357 | a warmer hour never draws a shorter bar |
| Weather.Chart | js/script.js:345-373 | bar k of a chart drawn in hour h is for hour `(h + k) mod 24`, with that hour's label, chart icon, temperature and height |
| Weather.BuildWeatherChart | js/script.js:334-392 | the loop draws bar k for hour `(h + k) mod 24` with that hour's icon, temperature and height |
| Weather.ChartBarsWellFormed | script.js:329-357 | every bar is in [10, 100] and is for an hour below 24; a window of at most a day repeats no hour |
| Location.HasCoordinates | js/script.js:219 | the negation of the guard that clears a widget when either coordinate is falsy: both coordinates present and non-zero |
| Location.FirstTruthy | js/script.js:162 | the first non-empty candidate, or the default when all are missing or empty |
| Location.CityOf | js/script.js:162 | the first non-empty of city, town, village, hamlet and county, with "Unknown city" last (proved equal to FirstTruthy in CityIsFirstPlaceName) |
| Location.CountryOf | js/script.js:163 | the reported country, or "Unknown country" when it is missing or empty |
| Location.CityIsFirstPlaceName | js/script.js:162 | the city is the first non-empty of city, town, village, hamlet and county, else "Unknown city", and is never empty |
| Location.LocationContext.RequestLocation | js/script.js:40-112 | a position stores the coordinates; an error resets all five variables and clears both widgets; without the API both widgets are cleared and the variables are kept |
| Location.LocationContext.ResetDetails | js/script.js:198-213 | city, country and time zone are reset and the details text shows unavailable; coordinates stay |
| Location.LocationContext.GetCityName | js/script.js:141-214 | any failure resets city, country and time zone; success sets the city and country by their fallbacks, and a non-empty time zone is shown with the city |
| Location.LocationContext.GetWeatherData | js/script.js:217-331 | without coordinates the widget is cleared and no request made; a failure clears it; a response fills it and sets the time zone only when none is known |
| Location.LocationContext.GetAirQualityData | js/script.js:395-476 | without coordinates the widget is cleared; with a missing element nothing happens; otherwise the widget shows the band and chart of the response or is cleared |
| Clock.ClockText | js/script.js:552-558 | the clock text `${hours}:${minutes}:` with both numbers padded to two digits |
| Clock.DateText | js/script.js:566-576 | the date text `${dayName}, ${monthName} ${date}, ${year}` |
| Clock.ClockTextReadsBack | js/script.js:545-560 | the clock text is six characters, hour and minute each two digits followed by a colon, each pair reading back as its number |
| Clock.SecondsTextReadsBack | js/script.js:552-554 | the seconds are two digits reading back as the seconds |
| Clock.DateTextFrame | js/script.js:566-576 | the date starts with the weekday and a comma and ends with the year |
| Clock.ClockWidget.UpdateTime | js/script.js:545-578 | each existing element gets its padded time or date text; missing ones keep theirs |
| Theme.StartsDark | js/script.js:588 | the load decision: the saved theme is "dark", or no theme is saved and the system prefers dark |
| Theme.SavedChoiceWins | js/script.js:588 | the page starts dark iff "dark" is saved, or nothing (or "") is saved and the system prefers dark; a switch choice wins over the system preference |
| Theme.ThemeToggle.InitThemeToggle | js/script.js:581-596 | the dark case sets the theme and checks the switch; otherwise nothing changes |
| Theme.ThemeToggle.OnSwitchChange | js/script.js:597-604 | the switch state is applied and saved as "dark" or "light", so the next load follows it whatever the system prefers |

## Left out

- Network requests, HTTP status handling, proxy URLs and `DOMParser` parsing. Fetch outcomes are parameters, and parsed feed items are abstract records holding an optional title, an optional news URL and the link texts.
- JSON text encoding of the `tasks` key. The stored value is modelled as the decoded list, or its absence. Malformed JSON, which makes `JSON.parse` throw, is not modelled.
- DOM construction and event wiring. Rendering is modelled as the value last written to each target. Markup inside entry titles and links is carried as text.
- Timers (`setInterval`), the order in which overlapping requests complete, and which of them writes last.
- The `navigator.geolocation` API, the reverse-geocoding service and the time-zone service. Their results are parameters.
- Floating-point arithmetic and formatting: `toFixed`, `Math.round` of temperatures, the `°C` texts. Temperatures, UV and AQI values are exact reals.
- `js/comp_market.js`: a single request whose prices are formatted with `toFixed`. It has no rule of its own.
- Movie image preloading and the proxied-image fallback, which are image-load callbacks.
- Console logging.
- `JsValues.IntToString`: exponent notation for magnitudes of 1e21 and above, and `-0`, are not modelled. The `Date` values involved are far smaller.
- Hourly forecast readings: the model requires at least 24 per array, which the services deliver. Null readings are not modelled.
- `Location.LocationContext.GetAirQualityData`: a missing PM value, which throws and sends the call to its failure path, is not modelled.
- `Location.LocationContext.GetWeatherData`, `Location.LocationContext.GetAirQualityData` and `Location.LocationContext.RequestLocation` do not model a page without the weather or location elements. The model assumes they exist. Without `#location` or `#location-city`, `requestLocation` throws before it asks for a position.
- `Tasks.TaskWidget.ToggleTaskCompletion`: an out-of-range index throws a `TypeError` in the page. The model states only that nothing is written.
- `Movie.TryFetchWithProxy`: an exception while processing a good response is modelled as a failed attempt, not by its cause.
- `SavedTasks.RowsFor`: the saved text is inserted into the label as markup. The browser's HTML parse of it is an input of the model, known only to keep plain text unchanged. A text with a tag, a character reference, a carriage return or a NUL character can therefore come back changed on the next save. The same path lets a stored text inject markup into the page.
