/**
 * `WeatherApp.display_weather`: the status gate, the per-field defaults, the
 * compass direction, the icon lookup and the sunrise/sunset rule, with the
 * printed lines returned as a sequence of tagged lines instead of being printed.
 */
module Report {
  import opened Wrappers
  import opened Text
  import opened Units

  /** The response's `cod`: a number on success, often a string such as "404" on errors. */
  datatype Cod = CodNumber(n: int) | CodText(t: string)

  /** The `sys` object. */
  datatype Sys = Sys(country: Option<string>, sunrise: Option<int>, sunset: Option<int>)

  /** The `main` object; the numbers are carried as the text Python prints for them. */
  datatype Readings = Readings(temp: Option<string>, feelsLike: Option<string>,
                               humidity: Option<string>, pressure: Option<string>)

  /** One element of the `weather` list. */
  datatype Condition = Condition(main: Option<string>, description: Option<string>)

  /** The `wind` object; `deg` is a whole number of degrees. */
  datatype Wind = Wind(speed: Option<string>, deg: Option<int>)

  /** The `clouds` object. */
  datatype Clouds = Clouds(all: Option<string>)

  /** The decoded JSON response: every key optional; `otherKeys` counts the keys the
      report does not read, which still make the dictionary non-empty. */
  datatype Response = Response(
    cod: Option<Cod>, message: Option<string>, name: Option<string>, sys: Option<Sys>,
    main: Option<Readings>, weather: Option<seq<Condition>>, wind: Option<Wind>,
    visibility: Option<string>, clouds: Option<Clouds>, otherKeys: nat)

  /** The response is `{}`, which Python treats as false. */
  predicate IsEmpty(r: Response) {
    r.cod.None? && r.message.None? && r.name.None? && r.sys.None? && r.main.None?
    && r.weather.None? && r.wind.None? && r.visibility.None? && r.clouds.None? && r.otherKeys == 0
  }

  /** The icons of the `icons` table, and the rainbow it falls back to. */
  datatype Icon =
    | Sun | Cloud | CloudWithRain | SunBehindRainCloud | CloudWithLightningAndRain | Snowflake
    | Fog | DashingAway | FaceInClouds | Tornado | Foggy | Rainbow

  /** One printed line of the report. */
  datatype Line =
    | NoData                                   // "No weather data to display."
    | ErrorLine(message: string)               // "Error: <message>"
    | Blank                                    // the empty line a leading or trailing "\n" prints
    | Rule(ch: char, width: nat)               // "=" * 50 or "-" * 30
    | Heading(city: string, country: string)   // "WEATHER FORECAST - <city>, <country>"
    | Conditions(description: string)
    | Temperature(temp: string, feelsLike: string, symbol: string)
    | Humidity(percent: string)
    | Pressure(hpa: string)
    | WindSpeed(speed: string)
    | WindDirection(point: string, degrees: int)
    | Visibility(meters: Option<string>)       // None prints "Visibility: N/A"
    | Sunrise(time: string)
    | Sunset(time: string)
    | DetailsHeading                           // "Additional Details:"
    | WeatherIcon(icon: Icon)
    | CloudCoverage(percent: string)

  /** What a call of `display_weather` does: print lines, or raise part-way. */
  datatype Outcome = Printed(lines: seq<Line>) | Raised(error: string)

  const NotAvailable: string := "N/A"
  const UnknownError: string := "Unknown error"
  const IndexErrorMessage: string := "list index out of range"

  // ---------------------------------------------------------------- compass

  const Directions: seq<string> := ["N", "NE", "E", "SE", "S", "SW", "W", "NW"]

  /** Python's `round(deg / 45)` for a whole number of degrees. `deg / 45` is never
      exactly half-way between two integers, so rounding is `floor(deg / 45 + 1/2)`. */
  function RoundDiv45(deg: int): (q: int)
    ensures -45 < 2 * (deg - 45 * q) < 45
  {
    (2 * deg + 45) / 90
  }

  /** `round(deg / 45)` is the multiple of 45 nearest to `deg`: within 22.5 degrees of
      it, and no other integer is. */
  lemma RoundDiv45Nearest(deg: int, q: int)
    ensures q == RoundDiv45(deg) <==> -45 < 2 * (deg - 45 * q) < 45
  {
    var r := RoundDiv45(deg);
    assert 90 * r <= 2 * deg + 45 < 90 * r + 90;
    if -45 < 2 * (deg - 45 * q) < 45 {
      assert 90 * q - 45 < 2 * deg < 90 * q + 45;
      assert (2 * deg + 45) - 90 * q != 0;
      assert 90 * q <= 2 * deg + 45 < 90 * q + 90;
    }
  }

  /** `round(deg / 45) % 8`: Python's `%` by a positive number is never negative. */
  function CompassIndex(deg: int): (i: int)
    ensures 0 <= i < 8
    ensures (i - RoundDiv45(deg)) % 8 == 0
  {
    RoundDiv45(deg) % 8
  }

  /** The compass point of the wind direction line. */
  function CompassPoint(deg: int): (p: string)
    ensures p in Directions
  {
    Directions[CompassIndex(deg)]
  }

  /** A full turn does not change the compass point. */
  lemma CompassPeriodic(deg: int)
    ensures CompassIndex(deg + 360) == CompassIndex(deg)
    ensures CompassPoint(deg + 360) == CompassPoint(deg)
  {
    assert RoundDiv45(deg + 360) == RoundDiv45(deg) + 8 by {
      RoundDiv45Nearest(deg + 360, RoundDiv45(deg) + 8);
    }
  }

  /** The compass point names the multiple of 45 degrees nearest to `deg`. */
  lemma CompassPointNearest(deg: int, k: int)
    requires -45 < 2 * (deg - 45 * k) < 45
    ensures CompassPoint(deg) == Directions[k % 8]
  {
    RoundDiv45Nearest(deg, k);
  }

  lemma CompassSamples()
    ensures CompassPoint(0) == "N"
    ensures CompassPoint(45) == "NE"
    ensures CompassPoint(315) == "NW"
    ensures CompassPoint(360) == "N"
    ensures CompassPoint(400) == "NE"
    ensures CompassPoint(-10) == "N"
  {
    assert RoundDiv45(0) == 0 && RoundDiv45(45) == 1 && RoundDiv45(315) == 7;
    assert RoundDiv45(360) == 8 && RoundDiv45(400) == 9 && RoundDiv45(-10) == 0;
    assert Directions[0] == "N" && Directions[1] == "NE" && Directions[7] == "NW";
  }

  // ---------------------------------------------------------------- icons

  /** The `icons` dictionary. */
  const IconTable: map<string, Icon> := map[
    "clear" := Sun, "clouds" := Cloud, "rain" := CloudWithRain, "drizzle" := SunBehindRainCloud,
    "thunderstorm" := CloudWithLightningAndRain, "snow" := Snowflake, "mist" := Fog,
    "smoke" := DashingAway, "haze" := FaceInClouds, "dust" := Tornado, "fog" := Foggy]

  /** `icons.get(main.lower(), "🌈")`. */
  function IconFor(main: string): (icon: Icon)
    ensures icon == Rainbow <==> ToLower(main) !in IconTable
    ensures icon != Rainbow ==> IconTable[ToLower(main)] == icon
  {
    var key := ToLower(main);
    if key in IconTable then IconTable[key] else Rainbow
  }

  /** Two condition keywords get the same table icon only when they are the same
      keyword up to case: the table gives every key its own icon. */
  lemma IconDeterminesKeyword(a: string, b: string)
    requires IconFor(a) == IconFor(b) != Rainbow
    ensures ToLower(a) == ToLower(b)
  {
  }

  lemma IconSamples()
    ensures IconFor("Clear") == Sun
    ensures IconFor("RAIN") == CloudWithRain
    ensures IconFor("") == Rainbow
    ensures IconFor("Tornado") == Rainbow
  {
    assert ToLower("Clear") == "clear";
    assert ToLower("RAIN") == "rain";
    assert ToLower("Tornado") == "tornado";
  }

  // ---------------------------------------------------------------- fields

  /** What `datetime.fromtimestamp(t).strftime('%H:%M:%S')` gives: the time of day, or
      the error it raises for a timestamp out of range. */
  datatype Clocked = Time(text: string) | Fails(error: string)

  /** The conversion of a timestamp, which depends on the local time zone. */
  type Clock = int -> Clocked

  /** A sunrise or sunset: converted by the clock when the timestamp is present and
      non-zero (Python's truth test), "N/A" otherwise, which cannot fail. */
  function ClockOrNA(t: Option<int>, clock: Clock): (c: Clocked)
    ensures t.None? || t.value == 0 ==> c == Time(NotAvailable)
    ensures t.Some? && t.value != 0 ==> c == clock(t.value)
  {
    if t.Some? && t.value != 0 then clock(t.value) else Time(NotAvailable)
  }

  /** The error that converting the sunrise, and after it the sunset, raises, if one does. */
  function ClockError(r: Response, clock: Clock): (e: Option<string>)
    ensures var sys := r.sys.GetOr(Sys(None, None, None));
      && (e.None? <==> ClockOrNA(sys.sunrise, clock).Time? && ClockOrNA(sys.sunset, clock).Time?)
      && (ClockOrNA(sys.sunrise, clock).Fails? ==> e == Some(ClockOrNA(sys.sunrise, clock).error))
      && (ClockOrNA(sys.sunrise, clock).Time? && ClockOrNA(sys.sunset, clock).Fails? ==>
            e == Some(ClockOrNA(sys.sunset, clock).error))
  {
    var sys := r.sys.GetOr(Sys(None, None, None));
    var rise, dusk := ClockOrNA(sys.sunrise, clock), ClockOrNA(sys.sunset, clock);
    if rise.Fails? then Some(rise.error)
    else if dusk.Fails? then Some(dusk.error)
    else None
  }

  /** A response `display_weather` prints in full: status 200, a `weather` list that is
      absent or not empty, and a sunrise and a sunset the clock can convert. */
  predicate Displayable(r: Response, clock: Clock) {
    r.cod == Some(CodNumber(200)) && r.weather != Some([]) && ClockError(r, clock).None?
  }

  /** The visibility line: `Visibility: <v> meters`, or `Visibility: N/A` when the value
      (defaulting to "N/A") is "N/A". */
  function VisibilityLine(v: Option<string>): (l: Line)
    ensures l.Visibility?
    ensures l.meters.None? <==> v.None? || v.value == NotAvailable
    ensures l.meters.Some? ==> v == l.meters
  {
    var shown := v.GetOr(NotAvailable);
    Visibility(if shown == NotAvailable then None else Some(shown))
  }

  /** `weather_data.get("weather", [{}])[0]`, when the list is not empty. */
  function FirstCondition(r: Response): Condition
    requires r.weather != Some([])
  {
    if r.weather.None? then Condition(None, None) else r.weather.value[0]
  }

  /** The wind direction line, present only when `wind.deg` is. */
  function WindDirectionLines(deg: Option<int>): (ls: seq<Line>)
    ensures |ls| == (if deg.Some? then 1 else 0)
    ensures deg.Some? ==> ls[0] == WindDirection(CompassPoint(deg.value), deg.value)
  {
    if deg.Some? then [WindDirection(CompassPoint(deg.value), deg.value)] else []
  }

  /** The banner, the heading and the readings down to the wind speed. */
  function Opening(r: Response, units: string): (ls: seq<Line>)
    requires r.weather != Some([])
    ensures |ls| == 10
  {
    var sys := r.sys.GetOr(Sys(None, None, None));
    var main := r.main.GetOr(Readings(None, None, None, None));
    var wind := r.wind.GetOr(Wind(None, None));
    [ Blank, Rule('=', 50),
      Heading(r.name.GetOr("Unknown"), sys.country.GetOr("")),
      Rule('=', 50),
      Blank, Conditions(TitleCase(FirstCondition(r).description.GetOr(NotAvailable))),
      Temperature(main.temp.GetOr(NotAvailable), main.feelsLike.GetOr(NotAvailable), Symbol(units)),
      Humidity(main.humidity.GetOr(NotAvailable)),
      Pressure(main.pressure.GetOr(NotAvailable)),
      WindSpeed(wind.speed.GetOr(NotAvailable)) ]
  }

  /** Visibility, sunrise and sunset, then the additional details. */
  function Closing(r: Response, clock: Clock): (ls: seq<Line>)
    requires r.weather != Some([]) && ClockError(r, clock).None?
    ensures |ls| == 11
  {
    var sys := r.sys.GetOr(Sys(None, None, None));
    var clouds := r.clouds.GetOr(Clouds(None));
    [ VisibilityLine(r.visibility),
      Sunrise(ClockOrNA(sys.sunrise, clock).text),
      Sunset(ClockOrNA(sys.sunset, clock).text),
      Blank, Rule('-', 30), DetailsHeading, Rule('-', 30),
      WeatherIcon(IconFor(FirstCondition(r).main.GetOr(""))),
      CloudCoverage(clouds.all.GetOr(NotAvailable)),
      Rule('=', 50), Blank ]
  }

  /** `wind.deg`, when the response has one. */
  function WindDegrees(r: Response): Option<int> {
    if r.wind.Some? then r.wind.value.deg else None
  }

  /** The lines printed for a successful response. */
  function Layout(r: Response, units: string, clock: Clock): (ls: seq<Line>)
    requires r.weather != Some([]) && ClockError(r, clock).None?
    ensures |ls| == 21 + |WindDirectionLines(WindDegrees(r))|
  {
    Opening(r, units) + WindDirectionLines(WindDegrees(r)) + Closing(r, clock)
  }

  /** `display_weather(weather_data)` with the preference `units`; `clock` stands for
      `datetime.fromtimestamp(t).strftime('%H:%M:%S')`. Nothing is printed before the
      timestamps are converted, so a failed conversion raises with no line printed. */
  function Render(data: Option<Response>, units: string, clock: Clock): (out: Outcome)
    ensures out.Printed? ==> out.lines != []
  {
    if data.None? || IsEmpty(data.value) then Printed([NoData])
    else if data.value.cod != Some(CodNumber(200)) then
      Printed([ErrorLine(data.value.message.GetOr(UnknownError))])
    else if data.value.weather == Some([]) then Raised(IndexErrorMessage)
    else if ClockError(data.value, clock).Some? then Raised(ClockError(data.value, clock).value)
    else Printed(Layout(data.value, units, clock))
  }

  // ---------------------------------------------------------------- properties

  /** The report is the single "No weather data" line exactly when there is no data or
      the response is empty. */
  lemma NoDataIff(data: Option<Response>, units: string, clock: Clock)
    ensures Render(data, units, clock) == Printed([NoData]) <==> data.None? || IsEmpty(data.value)
  {
    if !(data.None? || IsEmpty(data.value)) && Displayable(data.value, clock) {
      assert Layout(data.value, units, clock)[0] == Blank;
    }
  }

  /** A response whose `cod` is not the number 200 prints one error line carrying its
      `message`, or "Unknown error" without one, and none of the readings. */
  lemma ErrorGate(r: Response, units: string, clock: Clock)
    requires !IsEmpty(r) && r.cod != Some(CodNumber(200))
    ensures Render(Some(r), units, clock) == Printed([ErrorLine(r.message.GetOr(UnknownError))])
    ensures r.message.None? ==> Render(Some(r), units, clock) == Printed([ErrorLine(UnknownError)])
    ensures forall l | l in Render(Some(r), units, clock).lines ::
              !l.Temperature? && !l.Humidity? && !l.WindSpeed? && !l.WindDirection?
  {
  }

  /** A status-200 response makes `display_weather` raise before anything is printed
      exactly when its `weather` list is empty (IndexError) or a timestamp it converts is
      out of the clock's range; no other response does. */
  lemma RaisesIff(data: Option<Response>, units: string, clock: Clock)
    ensures Render(data, units, clock).Raised? <==>
            && data.Some? && data.value.cod == Some(CodNumber(200))
            && (data.value.weather == Some([]) || ClockError(data.value, clock).Some?)
    ensures data.Some? && data.value.cod == Some(CodNumber(200)) && data.value.weather == Some([]) ==>
            Render(data, units, clock) == Raised(IndexErrorMessage)
  {
  }

  /** A present non-zero sunrise the clock cannot convert raises its error; so does such
      a sunset, when the sunrise converted. The `weather` list is looked at first. */
  lemma ClockFailureRaises(r: Response, units: string, clock: Clock)
    requires r.cod == Some(CodNumber(200)) && r.weather != Some([])
    ensures var sys := r.sys.GetOr(Sys(None, None, None));
      var rise, dusk := sys.sunrise, sys.sunset;
      var riseFails := rise.Some? && rise.value != 0 && clock(rise.value).Fails?;
      var duskFails := dusk.Some? && dusk.value != 0 && clock(dusk.value).Fails?;
      && (riseFails ==> Render(Some(r), units, clock) == Raised(clock(rise.value).error))
      && (!riseFails && duskFails ==> Render(Some(r), units, clock) == Raised(clock(dusk.value).error))
      && (!riseFails && !duskFails <==> Render(Some(r), units, clock).Printed?)
  {
    assert !IsEmpty(r);
  }

  /** The report of a successful response: 21 lines, one more when `wind.deg` is given;
      the temperature line carries the preference's symbol, the wind speed line is
      always there, and the absent fields show their defaults. */
  lemma SuccessReport(r: Response, units: string, clock: Clock)
    requires Displayable(r, clock)
    ensures Render(Some(r), units, clock).Printed?
    ensures var lines := Render(Some(r), units, clock).lines;
      var extra := if WindDegrees(r).Some? then 1 else 0;
      && |lines| == 21 + extra
      && lines[6].Temperature? && lines[6].symbol == Symbol(units)
      && (r.main.None? ==> lines[6] == Temperature(NotAvailable, NotAvailable, Symbol(units)))
      && lines[9].WindSpeed?
      && (r.wind.None? ==> lines[9] == WindSpeed(NotAvailable))
      && (extra == 1 <==> lines[10].WindDirection?)
      && (extra == 1 ==> lines[10] == WindDirection(CompassPoint(WindDegrees(r).value), WindDegrees(r).value))
      && lines[10 + extra] == VisibilityLine(r.visibility)
      && (r.visibility.None? ==> lines[10 + extra] == Visibility(None))
      && (r.name.None? ==> lines[2].city == "Unknown")
      && (forall i | 0 <= i < |lines| :: lines[i].WindDirection? ==> i == 10 && extra == 1)
  {
    assert !IsEmpty(r);
    var lines := Render(Some(r), units, clock).lines;
    var o, w, c := Opening(r, units), WindDirectionLines(WindDegrees(r)), Closing(r, clock);
    assert lines == o + w + c;
    forall i | 0 <= i < |lines| && lines[i].WindDirection? ensures i == 10 && |w| == 1 {
      ConcatAt(o, w, c, i);
      if i < 10 {
        OpeningHasNoWindDirection(r, units, i);
      } else if i >= 10 + |w| {
        ClosingHasNoWindDirection(r, clock, i - 10 - |w|);
      }
    }
    ConcatAt(o, w, c, 10);
    ConcatAt(o, w, c, 10 + |w|);
  }

  /** An index into three sequences joined end to end. */
  lemma ConcatAt(a: seq<Line>, b: seq<Line>, c: seq<Line>, i: int)
    requires 0 <= i < |a| + |b| + |c|
    ensures i < |a| ==> (a + b + c)[i] == a[i]
    ensures |a| <= i < |a| + |b| ==> (a + b + c)[i] == b[i - |a|]
    ensures |a| + |b| <= i ==> (a + b + c)[i] == c[i - |a| - |b|]
  {
  }

  lemma OpeningHasNoWindDirection(r: Response, units: string, i: int)
    requires r.weather != Some([]) && 0 <= i < 10
    ensures !Opening(r, units)[i].WindDirection?
  {
  }

  lemma ClosingHasNoWindDirection(r: Response, clock: Clock, i: int)
    requires r.weather != Some([]) && ClockError(r, clock).None? && 0 <= i < 11
    ensures !Closing(r, clock)[i].WindDirection?
  {
  }

  /** The lines after the wind lines are the closing lines. */
  lemma ClosingAt(r: Response, units: string, clock: Clock, k: nat)
    requires Displayable(r, clock) && k < 11
    ensures var lines := Render(Some(r), units, clock).lines;
      var extra := if WindDegrees(r).Some? then 1 else 0;
      |lines| == 21 + extra && lines[10 + extra + k] == Closing(r, clock)[k]
  {
    assert !IsEmpty(r);
    assert Render(Some(r), units, clock).lines == Opening(r, units) + WindDirectionLines(WindDegrees(r)) + Closing(r, clock);
  }

  /** Line `k` of the opening part of a successful report. */
  lemma OpeningAt(r: Response, units: string, clock: Clock, k: nat)
    requires Displayable(r, clock) && k < 10
    ensures var lines := Render(Some(r), units, clock).lines;
      |lines| >= 21 && lines[k] == Opening(r, units)[k]
  {
    assert !IsEmpty(r);
    assert Render(Some(r), units, clock).lines == Opening(r, units) + WindDirectionLines(WindDegrees(r)) + Closing(r, clock);
  }

  /** The heading names the city, "Unknown" when the response has no `name`, and the
      country, empty when there is no `sys` object or it has no `country`. */
  lemma HeadingDefaults(r: Response, units: string, clock: Clock)
    requires Displayable(r, clock)
    ensures var lines := Render(Some(r), units, clock).lines;
      && |lines| >= 21
      && lines[2] == Heading(if r.name.Some? then r.name.value else "Unknown",
                             if r.sys.Some? && r.sys.value.country.Some? then r.sys.value.country.value else "")
  {
    OpeningAt(r, units, clock, 2);
  }

  /** Each reading of the `main` object prints "N/A" when `main` is missing or lacks
      that key, each one independently of the others. */
  lemma ReadingDefaults(r: Response, units: string, clock: Clock)
    requires Displayable(r, clock)
    ensures var lines := Render(Some(r), units, clock).lines;
      var m := r.main;
      && |lines| >= 21
      && lines[6] == Temperature(if m.Some? && m.value.temp.Some? then m.value.temp.value else "N/A",
                                 if m.Some? && m.value.feelsLike.Some? then m.value.feelsLike.value else "N/A",
                                 Symbol(units))
      && lines[7] == Humidity(if m.Some? && m.value.humidity.Some? then m.value.humidity.value else "N/A")
      && lines[8] == Pressure(if m.Some? && m.value.pressure.Some? then m.value.pressure.value else "N/A")
  {
    OpeningAt(r, units, clock, 6);
    OpeningAt(r, units, clock, 7);
    OpeningAt(r, units, clock, 8);
  }

  /** The wind speed prints "N/A" when there is no `wind` object or it has no `speed`. */
  lemma WindSpeedDefault(r: Response, units: string, clock: Clock)
    requires Displayable(r, clock)
    ensures var lines := Render(Some(r), units, clock).lines;
      var w := r.wind;
      && |lines| >= 21
      && lines[9] == WindSpeed(if w.Some? && w.value.speed.Some? then w.value.speed.value else "N/A")
  {
    OpeningAt(r, units, clock, 9);
  }

  /** The conditions line is the title-cased description of the first condition, and
      "N/A" when there is no `weather` list or its first element has no description. */
  lemma ConditionsDefault(r: Response, units: string, clock: Clock)
    requires Displayable(r, clock)
    ensures var lines := Render(Some(r), units, clock).lines;
      && |lines| >= 21
      && (r.weather.Some? && r.weather.value[0].description.Some? ==>
            lines[5] == Conditions(TitleCase(r.weather.value[0].description.value)))
      && (r.weather.None? || r.weather.value[0].description.None? ==> lines[5] == Conditions("N/A"))
  {
    OpeningAt(r, units, clock, 5);
    TitleOfNotAvailable();
  }

  /** The cloud coverage prints "N/A" when there is no `clouds` object or it has no `all`. */
  lemma CloudsDefault(r: Response, units: string, clock: Clock)
    requires Displayable(r, clock)
    ensures var lines := Render(Some(r), units, clock).lines;
      var extra := if WindDegrees(r).Some? then 1 else 0;
      var c := r.clouds;
      && |lines| == 21 + extra
      && lines[18 + extra] == CloudCoverage(if c.Some? && c.value.all.Some? then c.value.all.value else "N/A")
  {
    ClosingAt(r, units, clock, 8);
  }

  /** An absent or zero sunrise or sunset prints "N/A", whatever the clock does; a
      present non-zero one prints the time the clock converted it to. */
  lemma SunTimes(r: Response, units: string, clock: Clock)
    requires Displayable(r, clock)
    ensures var lines := Render(Some(r), units, clock).lines;
      var extra := if WindDegrees(r).Some? then 1 else 0;
      var sys := r.sys.GetOr(Sys(None, None, None));
      && |lines| == 21 + extra
      && (sys.sunrise.None? || sys.sunrise == Some(0) ==> lines[11 + extra] == Sunrise(NotAvailable))
      && (sys.sunset.None? || sys.sunset == Some(0) ==> lines[12 + extra] == Sunset(NotAvailable))
      && (sys.sunrise.Some? && sys.sunrise.value != 0 ==> lines[11 + extra] == Sunrise(clock(sys.sunrise.value).text))
      && (sys.sunset.Some? && sys.sunset.value != 0 ==> lines[12 + extra] == Sunset(clock(sys.sunset.value).text))
  {
    SunriseAt(r, units, clock);
    SunsetAt(r, units, clock);
  }

  lemma SunriseAt(r: Response, units: string, clock: Clock)
    requires Displayable(r, clock)
    ensures var lines := Render(Some(r), units, clock).lines;
      var extra := if WindDegrees(r).Some? then 1 else 0;
      && |lines| == 21 + extra
      && lines[11 + extra] == Sunrise(ClockOrNA(r.sys.GetOr(Sys(None, None, None)).sunrise, clock).text)
  {
    ClosingAt(r, units, clock, 1);
  }

  lemma SunsetAt(r: Response, units: string, clock: Clock)
    requires Displayable(r, clock)
    ensures var lines := Render(Some(r), units, clock).lines;
      var extra := if WindDegrees(r).Some? then 1 else 0;
      && |lines| == 21 + extra
      && lines[12 + extra] == Sunset(ClockOrNA(r.sys.GetOr(Sys(None, None, None)).sunset, clock).text)
  {
    ClosingAt(r, units, clock, 2);
  }

  /** The icon line shows the icon of the first condition's `main` (the table entry of
      its lower-case form, or the rainbow), and the rainbow when there is no `main`. */
  lemma IconLine(r: Response, units: string, clock: Clock)
    requires Displayable(r, clock)
    ensures var lines := Render(Some(r), units, clock).lines;
      var extra := if WindDegrees(r).Some? then 1 else 0;
      var main := FirstCondition(r).main;
      && |lines| == 21 + extra
      && (main.Some? ==> lines[17 + extra] == WeatherIcon(IconFor(main.value)))
      && (main.None? ==> lines[17 + extra] == WeatherIcon(Rainbow))
  {
    ClosingAt(r, units, clock, 7);
    var lines := Render(Some(r), units, clock).lines;
    var extra := if WindDegrees(r).Some? then 1 else 0;
    assert lines[17 + extra] == Closing(r, clock)[7];
    assert Closing(r, clock)[7] == WeatherIcon(IconFor(FirstCondition(r).main.GetOr("")));
    assert IconFor("") == Rainbow by { assert ToLower("") == ""; }
  }

  /** Every temperature line a report prints carries the preference's symbol. */
  lemma TemperatureSymbol(data: Option<Response>, units: string, clock: Clock)
    ensures Render(data, units, clock).Printed? ==>
      forall l | l in Render(data, units, clock).lines :: l.Temperature? ==> l.symbol == Symbol(units)
  {
    var out := Render(data, units, clock);
    if out.Printed? && out.lines != [NoData] && !out.lines[0].ErrorLine? {
      var r := data.value;
      var o, w, c := Opening(r, units), WindDirectionLines(WindDegrees(r)), Closing(r, clock);
      assert out.lines == o + w + c;
      forall l | l in out.lines && l.Temperature? ensures l.symbol == Symbol(units) {
        var i :| 0 <= i < |out.lines| && out.lines[i] == l;
        ConcatAt(o, w, c, i);
        if i >= 10 + |w| {
          ClosingHasNoTemperature(r, clock, i - 10 - |w|);
        }
      }
    }
  }

  lemma ClosingHasNoTemperature(r: Response, clock: Clock, i: int)
    requires r.weather != Some([]) && ClockError(r, clock).None? && 0 <= i < 11
    ensures !Closing(r, clock)[i].Temperature?
  {
  }

  /** Only the unit symbol depends on the preference: two preferences with the same
      symbol render every response alike. */
  lemma UnitsOnlyChangeSymbol(data: Option<Response>, u1: string, u2: string, clock: Clock)
    requires Symbol(u1) == Symbol(u2)
    ensures Render(data, u1, clock) == Render(data, u2, clock)
  {
  }
}
