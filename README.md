# Weather client model

A Dafny model of the console weather client `weather_app.py`. The client works
against the OpenWeatherMap current-weather endpoint and is built from four pieces:

- **Input classifier** (`validate_input`). A typed location is rejected when it is
  blank. It is a ZIP code when it holds only digits and hyphens and at least five
  digits. Anything else is a city name.
- **Unit preference** (`set_units`, `change_units`). The `units` field holds
  `"metric"` or `"imperial"`. It decides the `units=` query parameter and the
  `°C`/`°F` symbol of every report.
- **Report renderer** (`display_weather`). It covers the status gate, the `N/A`
  default of each field, the compass point of the wind direction, the icon table
  and the rule for sunrise and sunset. The printed report is modelled as a
  sequence of tagged lines.
- **Menu loop** (`run`, `check_weather`). Each pass reads a menu choice and then
  checks the weather, changes the units, exits or complains.

Modules:

| module | file | models |
|---|---|---|
| `Wrappers` | `wrappers.dfy` | `Option` |
| `Text` | `text.dfy` | `str.strip`, `str.isspace`, `str.replace("-", "")`, `str.isdigit`, `str.lower` and `str.title` |
| `Location` | `location.dfy` | `validate_input`, the request `check_weather` issues, and its query parameters |
| `Units` | `units.dfy` | what `set_units` and `change_units` store, and the unit symbol |
| `Report` | `report.dfy` | the decoded JSON response and `display_weather` as the pure function `Render` |
| `App` | `app.dfy` | the spec function `Session` of the menu loop, and the class `WeatherApp` |

The class `WeatherApp` holds `apiKey`, `baseUrl` and the mutable `units`.
`SetUnits`, `ChangeUnits`, `Step` and `Run` update that field. `CheckWeather`
only reads it and changes nothing. Each method is proved against the spec
functions above.

The console and the network are inputs to the model:

- Each pass through the menu is a `Round`. It carries the answer to the menu
  prompt, the answer to the location or unit prompt, the answer to the country
  prompt, and what the server returned (`None` when the request failed).
- When the rounds run out, that stands for the user interrupting the program.
- Formatting a timestamp as `HH:MM:SS` is a parameter, `clock: Clock`. For each
  timestamp it gives the time of day, or the error `datetime.fromtimestamp` raises
  for a timestamp out of range.

Behaviour of the code worth noting:

- A sunrise or sunset timestamp of `0` prints `N/A`, as an absent one does. The
  code tests the value's truth (`if sunrise:`), not whether it is present.
- A response whose `weather` list is empty does abort the report.
  `display_weather` raises `IndexError` at line 89, before it prints anything, and
  `run` catches the error. The model's outcome in that case is `Raised`.
- An empty JSON object never reaches `display_weather`. `check_weather` tests the
  reply's truth, so an empty object prints "Could not retrieve weather data"
  instead of "No weather data to display".
- A present, non-zero sunrise or sunset that `datetime.fromtimestamp` cannot
  convert aborts the report before anything is printed. The sunrise is converted
  first (lines 99-107), and `run` catches the error.
- A city query carries the stripped input, not the raw one. `check_weather` strips
  the input before it classifies it.

## Model

| member | source | states |
|---|---|---|
| Text.IsSpace | weather_app.py:169 | the characters `str.isspace` and `str.strip` treat as whitespace |
| Text.IsBlank | weather_app.py:169 | the text is empty or all whitespace, the test `not s or s.isspace()` makes |
| Text.LeadingSpaces | weather_app.py:223 | the number of leading whitespace characters: all of them whitespace, and the next one not |
| Text.TrailingSpaces | weather_app.py:223 | the number of trailing whitespace characters: all of them whitespace, and the one before them not |
| Text.Strip | weather_app.py:223 | `strip()` is the slice of the input between its leading and its trailing whitespace, both of which are all whitespace; it is empty exactly when the input is blank, and otherwise neither starts nor ends with whitespace |
| Text.StripKeepsTrimmed | weather_app.py:223 | a text without whitespace at either end is its own strip |
| Text.StripIdempotent | weather_app.py:223 | stripping a stripped answer changes nothing |
| Text.IsDigit | weather_app.py:173 | the characters `str.isdigit` accepts, ASCII digits in this model |
| Text.AllDigits | weather_app.py:173 | `str.isdigit()`: non-empty and only digits |
| Text.RemoveHyphens | weather_app.py:175 | `replace("-", "")` leaves no hyphen, keeps every other character with its count, and is shorter by the number of hyphens |
| Text.RemoveHyphensDigits | weather_app.py:173-175 | the hyphen-free text is all digits exactly when the input holds only digits and hyphens, and it then has one character per digit |
| Text.RemoveHyphensAllDigits | weather_app.py:173 | `replace("-", "").isdigit()` holds exactly when the input holds only digits and hyphens and at least one digit |
| Text.ToLower | weather_app.py:62 | `lower()` keeps the length, leaves no capital letter, turns each capital into its small letter and keeps every other character |
| Text.TitleCase | weather_app.py:89 | the ASCII title-casing keeps the length of the description |
| Text.TitleOfNotAvailable | weather_app.py:89 | the placeholder "N/A" is printed as "N/A" after `title()` |
| Text.TitleCaseIdempotent | weather_app.py:89 | title-casing an already title-cased description changes nothing |
| Location.LooksLikeZip | weather_app.py:173-176 | the hyphen-free input is all digits and has at least five of them |
| Location.ValidateInput | weather_app.py:165-180 | rejected exactly when the input is blank, always with "Input cannot be empty."; a ZIP code holds only digits and hyphens and at least five digits |
| Location.ZipIff | weather_app.py:172-180 | a non-blank input is a ZIP code if and only if it holds only digits and hyphens and at least five digits, and a city name otherwise |
| Location.ShortDigitsAreCity | weather_app.py:176-180 | a digit string shorter than five characters is a city name |
| Location.HyphensAreCity | weather_app.py:173-180 | a string of hyphens is a city name, since nothing is left to be digits |
| Location.SampleBlank | weather_app.py:169-170 | "" and " \t " are rejected |
| Location.SampleZip | weather_app.py:173-177 | "10001" is a ZIP code |
| Location.SampleHyphenatedZip | weather_app.py:173-177 | "12-345" is a ZIP code |
| Location.SampleCity | weather_app.py:176-180 | "1234" and "New York" are city names |
| Location.CountryOrDefault | weather_app.py:236-237 | the country is "US" exactly when the stripped answer is empty or is "US"; a non-blank answer is used stripped; it is never empty or led by whitespace |
| Location.PlanQuery | weather_app.py:223-240 | no request for a blank location; a ZIP request exactly when the stripped location classifies as a ZIP code, carrying the stripped location and the defaulted country; otherwise a city request with the stripped location |
| Location.ZipValue | weather_app.py:44 | the `zip` value `<code>,<country>` |
| Location.SplitAtComma | weather_app.py:44 | splitting at the first comma: the first part holds no comma, and the parts joined by a comma give the text back |
| Location.SplitOfJoin | weather_app.py:44 | joining a comma-free text and another with a comma and splitting again gives both back |
| Location.ZipValueSplits | weather_app.py:44 | the `zip=<code>,<country>` value of a classified ZIP code splits back into the code and the country |
| Location.QueryParams | weather_app.py:43-48 | four parameters in order: `q` with the city name or `zip` with `<code>,<country>`, then `appid` with the key, `units` with the preference, and `lang=en` |
| Location.ZipQuerySample | weather_app.py:234-238 | "10001" with an empty country answer asks by ZIP code for the US |
| Location.ZipParamSample | weather_app.py:43-44 | that request carries `zip=10001,US` |
| Location.CityQuerySample | weather_app.py:239-240 | "New York" asks by city, and no country is read |
| Location.CityParamSample | weather_app.py:24-25 | that request carries `q=New York` |
| Units.IsUnitKeyword | weather_app.py:62-67 | the lower-cased keyword is one of the six `set_units` knows, so no "Invalid unit" warning is printed |
| Units.UnitsFor | weather_app.py:58-68 | `set_units` always stores a valid unit system, and stores imperial exactly when the lower-cased keyword is f, fahrenheit or imperial |
| Units.UnitsForFixpoint | weather_app.py:62-65 | the stored value is itself a keyword that selects the same unit system |
| Units.MetricKeywordsSelectMetric | weather_app.py:62-63 | c, celsius and metric select metric in any letter case |
| Units.ImperialKeywordsSelectImperial | weather_app.py:64-65 | f, fahrenheit and imperial select imperial in any letter case |
| Units.UnknownKeywordSelectsMetric | weather_app.py:66-68 | an unknown keyword falls back to metric |
| Units.UnitsSamples | weather_app.py:58-68 | "Celsius", "F", "IMPERIAL" and "kelvin" store metric, imperial, imperial and metric |
| Units.ToLowerOfLower | weather_app.py:62 | `lower()` keeps a text without capitals as it is |
| Units.UnitsAfterChoice | weather_app.py:258-267 | the unit menu's answer keeps the preference a valid unit system |
| Units.ChoiceKeywords | weather_app.py:260-265 | the keywords `change_units` passes, "celsius" and "fahrenheit", store metric and imperial |
| Units.UnitsAfterChoiceCases | weather_app.py:258-267 | answer "1" selects metric, "2" imperial, and any other answer keeps the current units |
| Units.Symbol | weather_app.py:110 | the symbol is "°C" or "°F", and "°C" exactly for metric |
| Units.SymbolSamples | weather_app.py:110 | metric shows "°C" and imperial shows "°F" |
| Report.RoundDiv45 | weather_app.py:127 | `round(deg / 45)` for whole degrees below 2^47 in size: the q with deg within 22.5 degrees of 45q |
| Report.RoundDiv45Nearest | weather_app.py:127 | `round(deg / 45)` is the one integer q with deg within 22.5 degrees of 45q |
| Report.CompassIndex | weather_app.py:127 | the index lies in 0..7 and agrees with `round(deg / 45)` modulo 8 |
| Report.CompassPoint | weather_app.py:126-128 | the wind direction is one of the eight compass points |
| Report.CompassPeriodic | weather_app.py:124-129 | adding 360 degrees changes neither the index nor the compass point |
| Report.CompassPointNearest | weather_app.py:124-129 | the compass point names the multiple of 45 degrees nearest to the wind direction |
| Report.CompassSamples | weather_app.py:124-129 | 0, 45, 315, 360, 400 and -10 degrees give N, NE, NW, N, NE and N |
| Report.IconFor | weather_app.py:141-156 | the icon is the rainbow exactly when the lower-cased keyword is not in the table, and otherwise the table's entry |
| Report.IconDeterminesKeyword | weather_app.py:142-154 | two keywords with the same table icon are the same keyword up to case |
| Report.IconSamples | weather_app.py:141-156 | "Clear" and "RAIN" find their icons, "" and "Tornado" get the rainbow |
| Report.IsEmpty | weather_app.py:74-76 | the decoded object has no key at all, the one dictionary whose truth value is false |
| Report.FirstCondition | weather_app.py:89 | `weather[0]`, or the empty object when there is no `weather` key |
| Report.ClockOrNA | weather_app.py:99-107 | a sunrise or sunset is converted by the clock when present and non-zero, and is "N/A" otherwise, which cannot fail |
| Report.ClockError | weather_app.py:99-107 | the conversion error of the sunrise, or else of the sunset, and none exactly when both convert |
| Report.Displayable | weather_app.py:78-107 | the responses that print a full report: status 200, a `weather` list absent or not empty, timestamps the clock converts |
| Report.WindDegrees | weather_app.py:91 | `wind.deg`, or nothing without `wind` or without `deg` |
| Report.VisibilityLine | weather_app.py:131 | the line shows "N/A" exactly when visibility is absent or "N/A", and otherwise the value in meters |
| Report.WindDirectionLines | weather_app.py:124-129 | one wind direction line when `deg` is present, with its compass point and degrees, and none otherwise |
| Report.Opening | weather_app.py:83-122 | the report up to the wind speed has ten lines |
| Report.Closing | weather_app.py:131-163 | the report from visibility to the closing banner has eleven lines |
| Report.Layout | weather_app.py:112-163 | a full report has 21 lines plus the wind direction line when there is one |
| Report.Render | weather_app.py:70-163 | every printed outcome has at least one line |
| Report.NoDataIff | weather_app.py:74-76 | the report is the single "No weather data" line if and only if there is no data or the data is empty |
| Report.ErrorGate | weather_app.py:78-80 | a `cod` other than the number 200 prints only the error line, with the response's `message` or "Unknown error", and no readings |
| Report.RaisesIff | weather_app.py:89-107 | the report raises exactly when `cod` is 200 and either the `weather` list is empty, with IndexError, or a timestamp fails to convert |
| Report.ClockFailureRaises | weather_app.py:99-107 | a present non-zero sunrise the clock cannot convert raises its error; so does such a sunset after a good sunrise; otherwise the report prints |
| Report.SuccessReport | weather_app.py:83-131 | a successful report: its length; the temperature line with the preference's symbol; the wind speed line always present; the wind direction line only at position 10 and only with `deg`; the visibility line for any visibility; the defaults for absent main, wind, visibility and name |
| Report.OpeningAt | weather_app.py:83-122 | the first ten lines of a successful report are the opening lines, in order |
| Report.ClosingAt | weather_app.py:131-163 | the lines after the wind lines are the closing lines, in order |
| Report.HeadingDefaults | weather_app.py:83-112 | the heading shows `name`, or "Unknown" without one, and `sys.country`, or "" when `sys` or its `country` is missing |
| Report.ReadingDefaults | weather_app.py:85-119 | temperature, feels-like, humidity and pressure each print "N/A" when `main` or that key of it is missing, each independently, and otherwise the value |
| Report.WindSpeedDefault | weather_app.py:90-122 | the wind speed prints "N/A" when `wind` or its `speed` is missing |
| Report.ConditionsDefault | weather_app.py:89-114 | the conditions line is the title-cased description of `weather[0]`, and "N/A" when there is no `weather` list or no description |
| Report.CloudsDefault | weather_app.py:159-160 | the cloud coverage prints "N/A" when `clouds` or its `all` is missing |
| Report.SunriseAt | weather_app.py:99-102 | the sunrise line of a printed report shows the converted sunrise |
| Report.SunsetAt | weather_app.py:104-107 | the sunset line of a printed report shows the converted sunset |
| Report.SunTimes | weather_app.py:95-107 | absent or zero sunrise and sunset print "N/A", and others, in a printed report, print the clock's time |
| Report.IconLine | weather_app.py:141-157 | the icon line shows the icon of the first condition's `main`, and the rainbow without one |
| Report.TemperatureSymbol | weather_app.py:110-119 | every temperature line of any report carries the preference's symbol |
| Report.UnitsOnlyChangeSymbol | weather_app.py:70-163 | two preferences with the same symbol render every response identically |
| App.CheckOutcome | weather_app.py:219-246 | an invalid location exactly when it is blank; a report exactly when the location is valid and the reply is non-empty, and that report is `Render`'s; any request asks for the current units, and every printed temperature shows their symbol; the request is the one `PlanQuery` plans, with `QueryParams`'s parameters |
| App.MenuCommand | weather_app.py:199-211 | the stripped menu answer "1" checks the weather, "2" changes the units, "3" exits, and anything else is an unknown choice |
| App.StepUnits | weather_app.py:201-211 | one menu pass keeps a valid preference valid, and only "2" can change it |
| App.StepChecks | weather_app.py:201-204 | a menu pass makes one check exactly when the answer is "1", and that check is `CheckOutcome` of the pass's answers and server reply with the current units |
| App.Session | weather_app.py:192-217 | a session never reads more passes than it is given |
| App.SessionAdvance | weather_app.py:192-211 | a pass other than "3" contributes its check and its unit change, and the session goes on with the next pass |
| App.SessionStops | weather_app.py:207-209 | a "3" pass ends the session there |
| App.SessionKeepsUnits | weather_app.py:192-217 | a valid preference stays valid through any session |
| App.ExitEndsSession | weather_app.py:207-209 | choosing "3" first ends the session after one pass, with no check and the units unchanged |
| App.KeepsUnitsStep | weather_app.py:258-267 | a pass that is not "2", or a "2" pass answered with neither "1" nor "2", leaves the units as they were |
| App.UnitsStayWithoutChange | weather_app.py:192-217 | when no pass changes the units, they stay as they were, and every request and every temperature uses them |
| App.FahrenheitSticks | weather_app.py:263-265 | after choosing Fahrenheit, up to any later pass before which the units do not change again, the units are imperial, every request asks for imperial and every temperature shows "°F"; those checks open the whole session's checks |
| App.SessionPrefix | weather_app.py:192-217 | the checks of the first k passes are the first checks of the whole session |
| App.WeatherApp.constructor | weather_app.py:12-18 | a new object keeps the key, uses the fixed endpoint and starts in metric |
| App.WeatherApp.SetUnits | weather_app.py:58-68 | stores `UnitsFor(keyword)` and reports whether the keyword was recognised, that is, whether no warning is printed |
| App.WeatherApp.ChangeUnits | weather_app.py:248-267 | stores what the unit menu's answer selects, reports whether the answer was "1" or "2" (no "Keeping current units." message), and keeps the preference valid |
| App.WeatherApp.UnitSymbol | weather_app.py:110 | the object's symbol is "°C" exactly when its units are metric, and, for a valid object, "°F" exactly when they are imperial |
| App.WeatherApp.CheckWeather | weather_app.py:219-246 | carries out `CheckOutcome` for the current units |
| App.WeatherApp.Step | weather_app.py:201-211 | one pass changes the units as `StepUnits` says, makes the checks `StepChecks` says, and stops exactly on "3" |
| App.WeatherApp.Run | weather_app.py:182-217 | the loop ends with the units, the checks in order and the number of passes that `Session` gives, and keeps the preference valid |

## Left out

- The HTTP requests are left out (`get_weather_by_city` and `get_weather_by_zip`, lines 31-37 and 50-56). The model has their parameters (`QueryParams`). What the server returned is an input of each pass, with `None` for `RequestException`.
- `main` is left out (lines 270-314): its startup probe of the API key, the demo-mode prompt and its exception handlers are I/O around the core.
- `display_demo_weather` is left out (lines 317-338). It prints fixed text.
- The console is left out. Each prompt's answer is an input of the model. Banners, emoji and label texts are represented by line tags: a `Line` tag stands for each printed line, and `Blank` stands for the empty line a leading or trailing `"\n"` prints. The menu texts and result messages are not modelled.
- Text.IsDigit: only ASCII digits count. Python's `str.isdigit` also accepts other Unicode digits, such as superscripts or Arabic-Indic digits.
- Text.ToLower: only ASCII letters are lower-cased. For the unit keywords this is exact. Among non-ASCII characters, only the Kelvin sign lower-cases to a single ASCII letter, the `k`, and no unit keyword contains a `k`. The dotted capital I lower-cases to two characters, so it never yields a keyword. For the icon keyword "smoke" it is not exact: Python also maps "smoKe" (with the Kelvin sign) to it.
- Text.TitleCase: only ASCII letters count as cased, and each character maps to one character. Python's `title()` can change the length, for instance `'ß'.title()` is `'Ss'`.
- Report.ClockOrNA: `datetime.fromtimestamp(t).strftime('%H:%M:%S')` depends on the local time zone and on the platform's range of timestamps. It is the parameter `clock`, which gives either the time or the text of the error raised (`ValueError`, `OverflowError` or `OSError`).
- Floating-point values are not modelled.
  - Readings are carried as the text Python prints for them.
  - `wind.deg` is a whole number of degrees; a fractional `deg` is not modelled.
- Report.RoundDiv45: the integer formula equals Python's `round(deg / 45)` only for whole degrees below 2^47 in size. No whole number of degrees lies exactly half-way, and below that size the rounding error of the float division is smaller than the distance to a half-way point. Beyond it the float quotient can round onto the other side: for deg = 45·2^55 + 23 Python prints "N" and the model "NE".
- Only one JSON shape mistake is modelled: the empty `weather` list. Other type mistakes are not, such as a string `deg` (`TypeError`) or a `sys` that is not an object. The decoded response is a record of optional fields of the types the code reads.
- `run` is not modelled as looping forever on end of input. When `input()` meets the end of input, `EOFError` is caught by the `except Exception` handler and the loop repeats. The model's rounds are finite. Running out of rounds stands for `KeyboardInterrupt`.
- The printed text of an exception caught by `run` (`An unexpected error occurred: ...`) is the `Raised` outcome. Its text is the `IndexError` message or the error the clock gives.
